/**
 * The book details page: loads one book by the route's id, derives three
 * related-book searches from it, picks up the session's user and card, and
 * gates the borrow request behind "logged in" and "card linked".
 *
 * As on the profile page, each asynchronous call is a method that records
 * the request and a `Complete...` method that runs its callback.
 */
module BookDetails {
  import opened Wrappers
  import opened Alerts
  import opened Books
  import opened Users

  /** Shown in place of a publish date the server did not give. */
  const UnknownDate: string := "Không rõ"

  /** JavaScript truthiness of a `string | undefined`: present and not empty. */
  predicate Truthy(s: Option<string>) {
    s.Some? && s.value != ""
  }

  /** `params.get('id') || ''`. */
  function RouteId(param: Option<string>): (id: string)
    ensures Truthy(param) ==> id == param.value
    ensures !Truthy(param) ==> id == ""
  {
    param.GetOr("")
  }

  /** The book as shown: publish date defaulted, image normalised, all else as loaded. */
  function LoadedBook(raw: Book): (b: Book)
    ensures b.publishDate.Some? && b.publishDate.value != ""
    ensures Truthy(raw.publishDate) ==> b.publishDate == raw.publishDate
    ensures !Truthy(raw.publishDate) ==> b.publishDate == Some(UnknownDate)
    ensures b.image == NormalizedImage(raw.image)
    ensures b.(image := raw.image, publishDate := raw.publishDate) == raw
  {
    NewBook(raw.id, raw.title, raw.category, raw.image, raw.author, raw.publisher,
            if Truthy(raw.publishDate) then raw.publishDate else Some(UnknownDate),
            raw.overview, raw.numberOfPages)
  }

  /** A book search query; a fresh one sets no field. */
  datatype SearchModel = SearchModel(
    category: Option<seq<string>>,
    author: Option<string>,
    publisher: Option<string>)

  const NoCriteria: SearchModel := SearchModel(None, None, None)

  /** Books in the same category. */
  function CategorySearch(b: Book): (c: SearchModel)
    ensures c.category == Some([b.category])
    ensures c.(category := None) == NoCriteria
  {
    NoCriteria.(category := Some([b.category]))
  }

  /** Books by the same author. */
  function AuthorSearch(b: Book): (c: SearchModel)
    ensures c.author == Some(b.author)
    ensures c.(author := None) == NoCriteria
  {
    NoCriteria.(author := Some(b.author))
  }

  /** Books from the same publisher. */
  function PublisherSearch(b: Book): (c: SearchModel)
    ensures c.publisher == Some(b.publisher)
    ensures c.(publisher := None) == NoCriteria
  {
    NoCriteria.(publisher := Some(b.publisher))
  }

  /** A named entity nested in a search hit (category, author, publisher). */
  datatype Named = Named(name: string)

  /** A search hit as the gateway returns it, with nested category, author and publisher. */
  datatype BookEntry = BookEntry(
    id: string,
    title: string,
    category: Named,
    image: string,
    author: Named,
    publisher: Named,
    publishDate: Option<string>,
    overview: string,
    numberOfPages: int)

  /** One hit flattened into a Book: the nested names become the fields, the rest is copied. */
  function ToBook(e: BookEntry): (b: Book)
    ensures b.category == e.category.name && b.author == e.author.name && b.publisher == e.publisher.name
    ensures b.image == NormalizedImage(e.image)
    ensures b.id == e.id && b.title == e.title && b.publishDate == e.publishDate
    ensures b.overview == e.overview && b.numberOfPages == e.numberOfPages
  {
    NewBook(e.id, e.title, e.category.name, e.image, e.author.name, e.publisher.name,
            e.publishDate, e.overview, e.numberOfPages)
  }

  /** `books.map(...)`: every hit flattened, in order, none dropped or added. */
  function FlattenResults(es: seq<BookEntry>): (bs: seq<Book>)
    ensures |bs| == |es|
    ensures forall i :: 0 <= i < |es| ==> bs[i] == ToBook(es[i])
  {
    if es == [] then [] else [ToBook(es[0])] + FlattenResults(es[1..])
  }

  /** Flattening distributes over concatenation of result lists. */
  lemma {:induction false} FlattenAppend(xs: seq<BookEntry>, ys: seq<BookEntry>)
    ensures FlattenResults(xs + ys) == FlattenResults(xs) + FlattenResults(ys)
  {
    if xs == [] {
      assert xs + ys == ys;
    } else {
      assert (xs + ys)[1..] == xs[1..] + ys;
      FlattenAppend(xs[1..], ys);
    }
  }

  /** Hits that match a related-book query still match it once flattened. */
  lemma FlattenKeepsMatches(es: seq<BookEntry>, b: Book)
    ensures (forall i :: 0 <= i < |es| ==> es[i].category.name == b.category) ==>
              forall x :: x in FlattenResults(es) ==> x.category == b.category
    ensures (forall i :: 0 <= i < |es| ==> es[i].author.name == b.author) ==>
              forall x :: x in FlattenResults(es) ==> x.author == b.author
    ensures (forall i :: 0 <= i < |es| ==> es[i].publisher.name == b.publisher) ==>
              forall x :: x in FlattenResults(es) ==> x.publisher == b.publisher
  {
  }

  /** The body of the borrow request. */
  datatype BorrowPayload = BorrowPayload(
    cardNumber: Option<string>,
    bookId: string,
    borrowDate: Option<string>,
    returnDate: Option<string>)

  /** A request the page sends to the gateway. */
  datatype Request =
    | GetBook(id: string)
    | SearchBooks(criteria: SearchModel)
    | Borrow(payload: BorrowPayload)

  /** Which of the three related-book lists a search fills. */
  datatype Related = InCategory | FromAuthor | FromPublisher

  /** The alert for a borrow attempt without a linked card: danger, ten seconds. */
  const LinkCardAlert: Alert := Alert(LinkCardFirst, Danger, 10, AlertRegion)

  /** The alert a borrow reply appends: success for ten seconds, or a generic danger for five. */
  function BorrowReplyAlert(reply: Reply<()>): (a: Alert)
    ensures reply.Next? ==> a.kind == Success && a.seconds == 10 && a.message == BorrowRegistered
    ensures reply.Error? ==> a.kind == Danger && a.seconds == 5 && a.message == SomethingWentWrong
    ensures a.region == AlertRegion
  {
    match reply
    case Next(_) => Alert(BorrowRegistered, Success, 10, AlertRegion)
    case Error(_) => Alert(SomethingWentWrong, Danger, 5, AlertRegion)
  }

  class BookDetailsComponent {
    var userId: Option<string>
    var cardNumber: Option<string>
    var book: Book
    var waitingForBorrowAction: bool
    var inCategory: seq<Book>
    var fromAuthor: seq<Book>
    var fromPublisher: seq<Book>
    /** Values of the borrow form's two date controls. */
    var borrowDate: Option<string>
    var returnDate: Option<string>

    /** Gateway calls made, in order. */
    var requests: seq<Request>
    /** Alerts appended, in order. */
    var alerts: seq<Alert>
    /** Router navigations, as their single command. */
    var navigations: seq<string>
    /** Subscriptions taken on the session's profile stream. */
    var sessionSubscriptions: nat

    /** Builds the page; `today` is the formatted current date the borrow date defaults to. */
    constructor(today: string)
      ensures userId == None && cardNumber == None
      ensures book == NewBook() && !waitingForBorrowAction
      ensures inCategory == [] && fromAuthor == [] && fromPublisher == []
      ensures borrowDate == Some(today) && returnDate == None
      ensures requests == [] && alerts == [] && navigations == [] && sessionSubscriptions == 0
    {
      userId, cardNumber := None, None;
      book := NewBook();
      waitingForBorrowAction := false;
      inCategory, fromAuthor, fromPublisher := [], [], [];
      borrowDate, returnDate := Some(today), None;
      requests, alerts, navigations, sessionSubscriptions := [], [], [], 0;
    }

    /** The route's parameters arrive: fetch the book they name. */
    method OnRouteParams(idParam: Option<string>)
      modifies this`requests
      ensures requests == old(requests) + [GetBook(RouteId(idParam))]
    {
      requests := requests + [GetBook(RouteId(idParam))];
    }

    /**
     * The book arrives: keep it (publish date defaulted), follow the session
     * if logged in, and send the three related-book searches built from it.
     */
    method CompleteGetBook(raw: Book, isLoggedIn: bool)
      modifies this`book, this`requests, this`sessionSubscriptions
      ensures book == LoadedBook(raw)
      ensures sessionSubscriptions == old(sessionSubscriptions) + (if isLoggedIn then 1 else 0)
      ensures requests == old(requests) + [SearchBooks(CategorySearch(book)),
                                           SearchBooks(AuthorSearch(book)),
                                           SearchBooks(PublisherSearch(book))]
    {
      book := LoadedBook(raw);
      if isLoggedIn {
        sessionSubscriptions := sessionSubscriptions + 1;
      }
      requests := requests + [SearchBooks(CategorySearch(book)), SearchBooks(AuthorSearch(book)),
                              SearchBooks(PublisherSearch(book))];
    }

    /**
     * The session delivers the user. The user id is stored first; the card
     * is then dereferenced unchecked, so a user without a card ends the
     * callback there, with the id stored and the card number untouched.
     */
    method CompleteSessionUser(res: UserData)
      modifies this`userId, this`cardNumber
      ensures userId == Some(res.id)
      ensures res.libraryCard.Some? ==> cardNumber == Some(res.libraryCard.value.id)
      ensures res.libraryCard.None? ==> cardNumber == old(cardNumber)
    {
      userId := Some(res.id);
      match res.libraryCard
      case None =>
        return;
      case Some(card) =>
        cardNumber := Some(card.id);
    }

    /** One related-book search replies: that list becomes the flattened hits, the others stay. */
    method CompleteSearch(which: Related, results: seq<BookEntry>)
      modifies this`inCategory, this`fromAuthor, this`fromPublisher
      ensures inCategory == if which == InCategory then FlattenResults(results) else old(inCategory)
      ensures fromAuthor == if which == FromAuthor then FlattenResults(results) else old(fromAuthor)
      ensures fromPublisher == if which == FromPublisher then FlattenResults(results) else old(fromPublisher)
    {
      match which
      case InCategory => inCategory := FlattenResults(results);
      case FromAuthor => fromAuthor := FlattenResults(results);
      case FromPublisher => fromPublisher := FlattenResults(results);
    }

    /** The visitor fills in the borrow form. */
    method FillBorrowForm(borrowDate: Option<string>, returnDate: Option<string>)
      modifies this`borrowDate, this`returnDate
      ensures this.borrowDate == borrowDate && this.returnDate == returnDate
    {
      this.borrowDate, this.returnDate := borrowDate, returnDate;
    }

    /**
     * `borrowEvent`: no user goes to the login page; a user without a card
     * gets one warning; otherwise nothing happens here. Never a request.
     */
    method BorrowEvent()
      modifies this`navigations, this`alerts
      ensures !Truthy(userId) ==> navigations == old(navigations) + ["/login"] && alerts == old(alerts)
      ensures Truthy(userId) && !Truthy(cardNumber) ==>
                navigations == old(navigations) && alerts == old(alerts) + [LinkCardAlert]
      ensures Truthy(userId) && Truthy(cardNumber) ==>
                navigations == old(navigations) && alerts == old(alerts)
    {
      if !Truthy(userId) {
        navigations := navigations + ["/login"];
        return;
      }
      if !Truthy(cardNumber) {
        alerts := alerts + [LinkCardAlert];
        return;
      }
    }

    /** `borrow`: unguarded; raises the busy flag and sends the four-field payload. */
    method Borrow()
      modifies this`waitingForBorrowAction, this`requests
      ensures waitingForBorrowAction
      ensures requests == old(requests) + [Request.Borrow(BorrowPayload(cardNumber, book.id, borrowDate, returnDate))]
    {
      waitingForBorrowAction := true;
      var data := BorrowPayload(cardNumber, book.id, borrowDate, returnDate);
      requests := requests + [Request.Borrow(data)];
    }

    /** The borrow reply: the flag drops and exactly one alert is appended. */
    method CompleteBorrow(reply: Reply<()>)
      modifies this`waitingForBorrowAction, this`alerts
      ensures !waitingForBorrowAction
      ensures alerts == old(alerts) + [BorrowReplyAlert(reply)]
    {
      waitingForBorrowAction := false;
      alerts := alerts + [BorrowReplyAlert(reply)];
    }
  }
}
