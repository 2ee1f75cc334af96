# Library client orchestration, modelled in Dafny

This project models the decision logic of a library-catalog browser client
(an Angular application). It covers two page components and two record
models:

- **Profile page** (`ProfileComponent`). It keeps a busy flag `waiting`, a
  read model `user` and a pending-edit buffer `userToEdit`, fed by a
  seven-field edit form. Five sub-workflows change this state: edit, delete,
  avatar upload, password change and library-card linking. Each workflow
  has its guard clauses, one gateway request, and one alert per reply. Each
  workflow classifies HTTP failures in its own way.
- **Book details page** (`BookDetailsComponent`). It loads a book and
  defaults its publish date. It builds the three related-book searches
  (same category, author, publisher) and flattens their nested hits into
  `Book` records. It gates borrowing behind "logged in" and "card linked".
  It sends the four-field borrow request and alerts on the reply.
- **`Book`**: the constructor rewrites an empty image reference under the
  image base URL.
- **`User`**: the constructor defaults, and the `value` setter that
  overwrites thirteen fields in place and keeps the library card.

The components are classes whose methods update fields in place. Their
effects go to logs kept in the class: `requests` (gateway calls),
`alerts` (notification sink), `navigations` (router) and counters for
session subscriptions and log-outs. Every asynchronous call is split into
two methods. The first records the request. A `Complete...` method then runs
the subscription callback on a `Reply<T>`, which is `Next(value)` or
`Error(status)`. Frame clauses of the form ``modifies this`field`` state
which fields a method may change; nothing else changes.

Files: `wrappers.dfy` (Option), `alerts.dfy` (alert types, messages,
replies), `library_card.dfy`, `book.dfy`, `user.dfy`, `profile.dfy`,
`book_details.dfy`.

Behaviours of the code as written worth noting:

- A failed borrow shows a danger alert for 5 seconds, not 10
  (`book-details.component.ts:110`).
- Borrowing without a linked card shows a *danger* alert, not a warning
  (`book-details.component.ts:85`).
- A successful edit calls `setData()`, which raises `waiting` again. The
  flag stays raised until the profile stream delivers (`CompleteLoad`).
- An avatar read that yields no result or text returns early. The busy flag
  stays raised (`profile.component.ts:151-152`).
- A successful delete keeps the buffer's password. Only a failed delete
  clears it.
- `borrow()` has no guard of its own.

## Model

| member | source | states |
|---|---|---|
| `Books.NormalizedImage` | src/app/models/book.ts:15-17 | the image is never empty; a non-empty reference is kept; an empty one becomes the image base URL |
| `Books.NormalizedImageIdempotent` | src/app/models/book.ts:15-17 | normalising twice equals normalising once |
| `Books.NewBook` | src/app/models/book.ts:3-18 | the image is the normalised argument; every other field equals its argument |
| `Books.DefaultBook` | src/app/models/book.ts:3-13 | `new Book()` has empty strings, no publish date, 0 pages and the bare image base as image |
| `Books.RebuildIsIdentity` | src/app/models/book.ts:15-17 | re-constructing a book from its own fields gives the same book |
| `Users.Assigned` | src/app/models/user.ts:26-41 | after `value = v` the state is `v` with the previous library card |
| `Users.AssignedIdempotent` | src/app/models/user.ts:26-41 | assigning the same value twice equals assigning it once |
| `Users.AssignedKeepsLibraryCard` | src/app/models/user.ts:26-41 | the card is the old one; on every other field the result agrees with `v` |
| `Users.User.constructor` | src/app/models/user.ts:6-23 | each argument is stored unchanged in its field |
| `Users.User.SetValue` | src/app/models/user.ts:26-41 | the object's new state is `Assigned(old state, v)`; the library card is unchanged |
| `Users.NewEmptyUser` | src/app/models/user.ts:6-21 | `new User()` is "" for id, username, password, firstName and cardPassword, null for the nullable fields, and has no favourite books |
| `Profile.EditInfo.Value` | src/app/components/profile/profile.component.ts:32-40 | the form value has exactly the seven control names as keys |
| `Profile.ProfileFormIgnoresAccountFields` | src/app/components/profile/profile.component.ts:61-63 | the form seeded from a profile does not depend on the fields stripped before seeding: id, username, password, avatar, card and card password |
| `Profile.StagedProfileForm` | src/app/components/profile/profile.component.ts:61-71 | staging the seeded form puts the profile's own seven values into the buffer |
| `Profile.Staged` | src/app/components/profile/profile.component.ts:69-72 | the buffer's keys become the old keys plus the seven form keys; form keys hold the form's values; every other key (username, password, ...) keeps its old value |
| `Profile.StagedTwice` | src/app/components/profile/profile.component.ts:69-72 | staging two forms in a row equals staging only the later one |
| `Profile.StagedIdempotent` | src/app/components/profile/profile.component.ts:69-72 | staging the same form twice equals staging it once |
| `Profile.EditErrorMessage` | src/app/components/profile/profile.component.ts:89-103 | invalid-input exactly for 400 and 409, cannot-connect exactly for 0, generic exactly otherwise |
| `Profile.DeleteErrorMessage` | src/app/components/profile/profile.component.ts:122-139 | not-found exactly for 404, invalid-input exactly for 400, cannot-connect exactly for 0, generic otherwise (409 included) |
| `Profile.AvatarErrorMessage` | src/app/components/profile/profile.component.ts:172-181 | cannot-connect exactly for 0, generic for every other status |
| `Profile.CredentialErrorMessage` | src/app/components/profile/profile.component.ts:210-266 | for password change and card linking: invalid-input exactly for 400, cannot-connect exactly for 0, generic otherwise |
| `Profile.EditErrorAgainstStatusClass` | src/app/components/profile/profile.component.ts:89-103 | edit agrees with the shared failure taxonomy except that 404 is generic |
| `Profile.DeleteErrorAgainstStatusClass` | src/app/components/profile/profile.component.ts:122-139 | delete agrees with the taxonomy except that 409 is generic |
| `Profile.CredentialErrorAgainstStatusClass` | src/app/components/profile/profile.component.ts:210-223 | password change and card linking agree with the taxonomy except that 404 and 409 are generic |
| `Profile.AvatarErrorAgainstStatusClass` | src/app/components/profile/profile.component.ts:172-181 | avatar upload agrees with the taxonomy on 0 and generic statuses; 400, 404 and 409 are generic |
| `Profile.ProfileComponent.constructor` | src/app/components/profile/profile.component.ts:42-50 | empty user, empty buffer, blank form; navigation to /login exactly when logged out; the profile load started (busy, one subscription) |
| `Profile.ProfileComponent.SetData` | src/app/components/profile/profile.component.ts:52-56 | raises `waiting` and takes one more profile subscription |
| `Profile.ProfileComponent.CompleteLoad` | src/app/components/profile/profile.component.ts:55-66 | the user becomes `Assigned(old, data)`; the buffer gets the username and an empty password; the form is the seven-field projection; `waiting` drops |
| `Profile.ProfileComponent.FillForm` | src/app/components/profile/profile.component.ts:24-40 | the form controls take the visitor's values |
| `Profile.ProfileComponent.SubmitChange` | src/app/components/profile/profile.component.ts:69-72 | the buffer becomes `Staged(old buffer, form)` |
| `Profile.ProfileComponent.Change` | src/app/components/profile/profile.component.ts:74-78 | busy, and exactly one edit request carrying the buffer |
| `Profile.ProfileComponent.CompleteChange` | src/app/components/profile/profile.component.ts:79-105 | the password is cleared either way; success restarts the load (busy again) and appends one success alert of 5 s; failure drops `waiting` and appends one danger alert of 5 s classified by `EditErrorMessage` |
| `Profile.ProfileComponent.Delete` | src/app/components/profile/profile.component.ts:108-111 | busy, and exactly one delete request carrying the buffer |
| `Profile.ProfileComponent.LogOut` | src/app/components/profile/profile.component.ts:271-274 | one navigation to home |
| `Profile.ProfileComponent.CompleteDelete` | src/app/components/profile/profile.component.ts:112-140 | `waiting` drops; success ends the session, goes home, keeps the buffer and alerts success; failure clears the password and appends one danger alert classified by `DeleteErrorMessage` |
| `Profile.ProfileComponent.UploadAvatar` | src/app/components/profile/profile.component.ts:144-148 | raises `waiting` while the file is read |
| `Profile.ProfileComponent.AvatarRead` | src/app/components/profile/profile.component.ts:149-161 | bytes give exactly one upload request with the username; a missing or text result records nothing and leaves `waiting` as it was |
| `Profile.ProfileComponent.CompleteAvatarUpload` | src/app/components/profile/profile.component.ts:161-183 | `waiting` drops and one alert is appended; success sets only `user.avatarImage`; failure is classified by `AvatarErrorMessage` |
| `Profile.ProfileComponent.ChangePassword` | src/app/components/profile/profile.component.ts:189-202 | an empty old or new password, or equal ones, changes nothing; otherwise busy and exactly one request |
| `Profile.ProfileComponent.CompleteChangePassword` | src/app/components/profile/profile.component.ts:202-225 | `waiting` drops and exactly one alert is appended, classified by `CredentialErrorMessage` on failure |
| `Profile.ProfileComponent.LinkLibraryCard` | src/app/components/profile/profile.component.ts:228-244 | an empty card number or card password changes nothing; otherwise busy and exactly one request with the user id |
| `Profile.ProfileComponent.CompleteLinkCard` | src/app/components/profile/profile.component.ts:244-268 | `waiting` drops and one alert is appended; success sets only `user.libraryCard` to the returned card |
| `BookDetails.RouteId` | src/app/components/book-details/book-details.component.ts:41 | the route's id when present and non-empty, otherwise "" |
| `BookDetails.LoadedBook` | src/app/components/book-details/book-details.component.ts:51 | the publish date is never absent or empty: the upstream date when non-empty, otherwise the "unknown" sentinel; the image is normalised; all else is copied |
| `BookDetails.CategorySearch` | src/app/components/book-details/book-details.component.ts:65 | category is `[book.category]`; no other criterion is set |
| `BookDetails.AuthorSearch` | src/app/components/book-details/book-details.component.ts:66 | author is `book.author`; no other criterion is set |
| `BookDetails.PublisherSearch` | src/app/components/book-details/book-details.component.ts:67 | publisher is `book.publisher`; no other criterion is set |
| `BookDetails.ToBook` | src/app/components/book-details/book-details.component.ts:69 | category, author and publisher are the nested names; the image is normalised; the other fields are copied |
| `BookDetails.FlattenResults` | src/app/components/book-details/book-details.component.ts:69-71 | same length, and the i-th book is the i-th hit flattened |
| `BookDetails.FlattenAppend` | src/app/components/book-details/book-details.component.ts:69 | flattening a concatenation is the concatenation of the flattenings |
| `BookDetails.FlattenKeepsMatches` | src/app/components/book-details/book-details.component.ts:65-71 | hits that match the category, author or publisher query still match after flattening |
| `BookDetails.BorrowReplyAlert` | src/app/components/book-details/book-details.component.ts:103-111 | success alerts "registered" for 10 s; any failure alerts generic danger for 5 s |
| `BookDetails.BookDetailsComponent.constructor` | src/app/components/book-details/book-details.component.ts:19-35 | no user or card; the default book; not busy; empty related lists; borrow date today, no return date; empty logs |
| `BookDetails.BookDetailsComponent.OnRouteParams` | src/app/components/book-details/book-details.component.ts:39-49 | exactly one book fetch, for `RouteId` of the parameter |
| `BookDetails.BookDetailsComponent.CompleteGetBook` | src/app/components/book-details/book-details.component.ts:49-72 | the book becomes `LoadedBook(raw)`; one session subscription exactly when logged in; the three searches built from the loaded book, in order |
| `BookDetails.BookDetailsComponent.CompleteSessionUser` | src/app/components/book-details/book-details.component.ts:56-63 | the user id is taken from the session user; the card id too when the user has a card, otherwise the card number is left as it was (the unchecked dereference ends the callback after the id is stored) |
| `BookDetails.BookDetailsComponent.CompleteSearch` | src/app/components/book-details/book-details.component.ts:69-71 | only the searched list changes, to the flattened hits |
| `BookDetails.BookDetailsComponent.FillBorrowForm` | src/app/components/book-details/book-details.component.ts:29-35 | the two date controls take the visitor's values |
| `BookDetails.BookDetailsComponent.BorrowEvent` | src/app/components/book-details/book-details.component.ts:76-88 | no user: one navigation to /login and no alert; a user without a card: one 10 s danger alert and no navigation; otherwise nothing; never a request |
| `BookDetails.BookDetailsComponent.Borrow` | src/app/components/book-details/book-details.component.ts:90-102 | busy, and exactly one borrow request with card number, book id and the two form dates |
| `BookDetails.BookDetailsComponent.CompleteBorrow` | src/app/components/book-details/book-details.component.ts:102-112 | busy drops and exactly one `BorrowReplyAlert` is appended |

## Left out

- Asynchrony and RxJS. Each subscription callback is a `Complete...` method called with the reply. The model does not cover re-emission of the session's profile stream to earlier subscriptions, teardown on navigation, or interleavings. Each `CompleteLoad` is one delivery.
- A search is recorded as a request when its observable is built (`book-details.component.ts:69-71`). The HTTP call itself happens when the template subscribes. Replacing the three observables is not modelled either: a new book load leaves the lists as they were until a search replies. A failed search has no handler in the component, and the model leaves that list unchanged.
- Services and the router are not part of this model. Their effects are logs, and `isLoggedIn` and the session user are parameters. Registering `logOut` with the data service (`profile.component.ts:49`) is left out because that service is not part of this model.
- `Profile.ProfileComponent.CompleteLoad`: does not model that Angular's `FormGroup.setValue` rejects a key it has no control for. The object built at `profile.component.ts:61` still carries `favoriteBooks` whenever the payload does. The model assumes the seven-field projection succeeds.
- Writes to `userToEdit` made by the page's template (for example a confirmation password) are not part of this model. In the model, only the methods here write the buffer.
- Reading the file and converting `ArrayBuffer` to bytes are abstracted as `ReadResult`. The `onloadend` test becomes "is it `Bytes`".
- The default borrow date is the current date, formatted by a utility that is not part of this model. It is the constructor's `today` parameter.
- Message texts are an enumeration, `Message`. The alert region is the constant `AlertRegion`. `console.log` output is not modelled.
- The exception thrown by `res.libraryCard.id` for a session user without a card (`book-details.component.ts:61`) is not modelled as an error; the model keeps only its effect, that the callback stops after storing the user id.
- Search hits always carry their nested category, author and publisher. A null nested object would make `.name` throw, and that is not modelled.
- `image` is modelled as a string, as it is typed. A `null` from the server would produce the text `null` after the base URL, and that is not modelled.
- `numberOfPages` is an unbounded integer; JavaScript numbers are floating point.
- The `SearchModel` class is not part of this model. A fresh one is assumed to set no criterion.
- `isFavorite` is declared on the book details page but never read or written. It is not modelled.
- Form validation (`Validators.required`) is not modelled.
