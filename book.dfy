/** The Book record and the image normalisation its constructor applies. */
module Books {
  import opened Wrappers

  /** Base URL an empty image reference is rewritten under. */
  const ImageBase: string := "http://localhost:8080/images/book/"

  datatype Book = Book(
    id: string,
    title: string,
    category: string,
    image: string,
    author: string,
    publisher: string,
    publishDate: Option<string>,
    overview: string,
    numberOfPages: int)

  /**
   * The constructor's rule for `image`: an empty (falsy) reference becomes
   * the base URL followed by that same empty reference; any other is kept.
   */
  function NormalizedImage(image: string): (r: string)
    ensures r != ""
    ensures image != "" ==> r == image
    ensures image == "" ==> r == ImageBase
  {
    if image == "" then ImageBase + image else image
  }

  /** Normalising an already normalised reference changes nothing. */
  lemma NormalizedImageIdempotent(image: string)
    ensures NormalizedImage(NormalizedImage(image)) == NormalizedImage(image)
  {
  }

  /** `new Book(...)`, with the constructor's default arguments. */
  function NewBook(
    id: string := "",
    title: string := "",
    category: string := "",
    image: string := "",
    author: string := "",
    publisher: string := "",
    publishDate: Option<string> := None,
    overview: string := "",
    numberOfPages: int := 0): (b: Book)
    ensures b.image == NormalizedImage(image)
    ensures b.(image := image) == Book(id, title, category, image, author, publisher, publishDate, overview, numberOfPages)
  {
    Book(id, title, category, NormalizedImage(image), author, publisher, publishDate, overview, numberOfPages)
  }

  /** `new Book()`: empty strings, no publish date, no pages, and the bare image base. */
  lemma DefaultBook()
    ensures NewBook() == Book("", "", "", ImageBase, "", "", None, "", 0)
  {
  }

  /** Re-constructing a constructed book from its own fields gives it back unchanged. */
  lemma RebuildIsIdentity(b: Book)
    requires b.image != ""
    ensures NewBook(b.id, b.title, b.category, b.image, b.author, b.publisher,
                    b.publishDate, b.overview, b.numberOfPages) == b
  {
  }
}
