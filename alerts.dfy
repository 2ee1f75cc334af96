/**
 * What the components hand to the notification sink, and the shape of one
 * gateway reply. The alert texts are enumerated: one constructor per distinct
 * message the components emit.
 */
module Alerts {

  /** Severity of an alert (the alert service's AlertType). */
  datatype AlertType = Info | Success | Warning | Danger

  datatype Message =
    | ProfileUpdated      // the edit was saved
    | InvalidInput        // "information is not valid, please check it"
    | CannotConnect       // "cannot connect to the server, try again later"
    | SomethingWentWrong  // "an error occurred, try again later"
    | AccountDeleted
    | AccountNotFound
    | AvatarChanged       // "avatar changed, reload the page to see it"
    | PasswordChanged
    | CardLinked
    | LinkCardFirst       // "link a library card before borrowing"
    | BorrowRegistered    // "loan registered, bring the card to the library"

  /** The page region every alert of these components is shown in. */
  const AlertRegion: string := "alert-container"

  /** One call of `appendAlert(message, type, seconds, region)`. */
  datatype Alert = Alert(message: Message, kind: AlertType, seconds: int, region: string)

  /**
   * The single reply of one gateway call: the value its `next` callback
   * receives, or the HTTP status its `error` callback sees (0 when the
   * server could not be reached).
   */
  datatype Reply<+T> = Next(value: T) | Error(status: int)
}
