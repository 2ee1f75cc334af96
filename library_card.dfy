/** The library card record: plain data with no behaviour of its own. */
module LibraryCards {
  import opened Wrappers

  datatype LibraryCard = LibraryCard(
    id: string,
    password: string,
    issueDate: Option<string>,
    expirationDate: Option<string>)
}
