/**
 * The profile page: a read model (`user`), a pending-edit buffer
 * (`userToEdit`), the edit form, one shared busy flag (`waiting`), and five
 * sub-workflows (edit, delete, avatar upload, password change, card linking).
 *
 * Every asynchronous call is split in two: the method that starts it records
 * the gateway request, and a `Complete...` method runs the body of the
 * subscription callback for the reply. Gateway calls, alerts, navigation and
 * session log-outs are kept as append-only logs.
 */
module Profile {
  import opened Wrappers
  import opened Alerts
  import opened LibraryCards
  import opened Users

  /** A value held by a form control or by the pending-edit buffer. */
  datatype Field = Null | Str(text: string) | Bool(flag: bool)

  function OptionalText(s: Option<string>): Field {
    match s
    case None => Null
    case Some(t) => Str(t)
  }

  function OptionalFlag(b: Option<bool>): Field {
    match b
    case None => Null
    case Some(f) => Bool(f)
  }

  /** The names of the seven controls of the edit form. */
  const FormKeys: set<string> :=
    {"firstName", "lastName", "dateOfBirth", "gender", "phoneNumber", "email", "address"}

  /** The values of the seven controls of the edit form. */
  datatype EditInfo = EditInfo(
    firstName: Field,
    lastName: Field,
    dateOfBirth: Field,
    gender: Field,
    phoneNumber: Field,
    email: Field,
    address: Field)
  {
    /** The form group's value object, keyed by control name. */
    function Value(): (m: map<string, Field>)
      ensures m.Keys == FormKeys
    {
      map["firstName" := firstName, "lastName" := lastName, "dateOfBirth" := dateOfBirth,
          "gender" := gender, "phoneNumber" := phoneNumber, "email" := email, "address" := address]
    }
  }

  /** Every control starts out null. */
  const BlankForm: EditInfo := EditInfo(Null, Null, Null, Null, Null, Null, Null)

  /**
   * What loading a profile puts into the form: exactly the seven editable
   * fields, nothing of the identifier, credentials, avatar or card.
   */
  function ProfileForm(data: UserData): EditInfo {
    EditInfo(Str(data.firstName), OptionalText(data.lastName), OptionalText(data.dateOfBirth),
             OptionalFlag(data.gender), OptionalText(data.phoneNumber), OptionalText(data.email),
             OptionalText(data.address))
  }

  /**
   * The form seeded from a profile depends on none of the account fields
   * stripped before seeding: identifier, username, password, avatar, card
   * and card password.
   */
  lemma ProfileFormIgnoresAccountFields(data: UserData, id: string, username: string, password: string,
                                        avatarImage: Option<string>, libraryCard: Option<LibraryCard>,
                                        cardPassword: string)
    ensures ProfileForm(data.(id := id, username := username, password := password,
                              avatarImage := avatarImage, libraryCard := libraryCard,
                              cardPassword := cardPassword))
            == ProfileForm(data)
  {
  }

  /** Seeding the form and staging it writes the profile's own values under the seven keys. */
  lemma StagedProfileForm(buffer: map<string, Field>, data: UserData)
    ensures Staged(buffer, ProfileForm(data))["firstName"] == Str(data.firstName)
    ensures Staged(buffer, ProfileForm(data))["lastName"] == OptionalText(data.lastName)
    ensures Staged(buffer, ProfileForm(data))["dateOfBirth"] == OptionalText(data.dateOfBirth)
    ensures Staged(buffer, ProfileForm(data))["gender"] == OptionalFlag(data.gender)
    ensures Staged(buffer, ProfileForm(data))["phoneNumber"] == OptionalText(data.phoneNumber)
    ensures Staged(buffer, ProfileForm(data))["email"] == OptionalText(data.email)
    ensures Staged(buffer, ProfileForm(data))["address"] == OptionalText(data.address)
  {
  }

  /**
   * `submitChange`: the form value merged over the buffer. Form keys take
   * the form's value; every other key keeps what the buffer held.
   */
  function Staged(buffer: map<string, Field>, form: EditInfo): (r: map<string, Field>)
    ensures r.Keys == buffer.Keys + FormKeys
    ensures forall k :: k in FormKeys ==> r[k] == form.Value()[k]
    ensures forall k :: k in buffer && k !in FormKeys ==> r[k] == buffer[k]
  {
    buffer + form.Value()
  }

  /** Staging twice is staging the later form: each stage overwrites all seven keys. */
  lemma StagedTwice(buffer: map<string, Field>, first: EditInfo, second: EditInfo)
    ensures Staged(Staged(buffer, first), second) == Staged(buffer, second)
  {
  }

  /** Staging the same form again changes nothing. */
  lemma StagedIdempotent(buffer: map<string, Field>, form: EditInfo)
    ensures Staged(Staged(buffer, form), form) == Staged(buffer, form)
  {
    StagedTwice(buffer, form, form);
  }

  /** Classification of a failed edit. */
  function EditErrorMessage(status: int): (m: Message)
    ensures m == InvalidInput <==> status == 400 || status == 409
    ensures m == CannotConnect <==> status == 0
    ensures m == SomethingWentWrong <==> status !in {0, 400, 409}
  {
    if status == 400 || status == 409 then InvalidInput
    else if status == 0 then CannotConnect
    else SomethingWentWrong
  }

  /** Classification of a failed account deletion; 409 is not singled out here. */
  function DeleteErrorMessage(status: int): (m: Message)
    ensures m == AccountNotFound <==> status == 404
    ensures m == InvalidInput <==> status == 400
    ensures m == CannotConnect <==> status == 0
    ensures m == SomethingWentWrong <==> status !in {0, 400, 404}
  {
    if status == 404 then AccountNotFound
    else if status == 400 then InvalidInput
    else if status == 0 then CannotConnect
    else SomethingWentWrong
  }

  /** Classification of a failed avatar upload: only "no connection" is told apart. */
  function AvatarErrorMessage(status: int): (m: Message)
    ensures m == CannotConnect <==> status == 0
    ensures m == SomethingWentWrong <==> status != 0
  {
    if status == 0 then CannotConnect else SomethingWentWrong
  }

  /** Classification shared by a failed password change and a failed card link. */
  function CredentialErrorMessage(status: int): (m: Message)
    ensures m == InvalidInput <==> status == 400
    ensures m == CannotConnect <==> status == 0
    ensures m == SomethingWentWrong <==> status !in {0, 400}
  {
    if status == 400 then InvalidInput
    else if status == 0 then CannotConnect
    else SomethingWentWrong
  }

  /**
   * The application-wide failure taxonomy the workflows draw on: no
   * connection, invalid input (400 or 409), not found (404), anything else.
   */
  function StatusClass(status: int): Message {
    if status == 0 then CannotConnect
    else if status == 400 || status == 409 then InvalidInput
    else if status == 404 then AccountNotFound
    else SomethingWentWrong
  }

  /** Edit follows the taxonomy except that 404 is a generic failure. */
  lemma EditErrorAgainstStatusClass(status: int)
    ensures status != 404 ==> EditErrorMessage(status) == StatusClass(status)
    ensures status == 404 ==> EditErrorMessage(status) == SomethingWentWrong
  {
  }

  /** Delete follows the taxonomy except that 409 is a generic failure. */
  lemma DeleteErrorAgainstStatusClass(status: int)
    ensures status != 409 ==> DeleteErrorMessage(status) == StatusClass(status)
    ensures status == 409 ==> DeleteErrorMessage(status) == SomethingWentWrong
  {
  }

  /** Password change and card linking follow the taxonomy except for 404 and 409. */
  lemma CredentialErrorAgainstStatusClass(status: int)
    ensures status !in {404, 409} ==> CredentialErrorMessage(status) == StatusClass(status)
    ensures status in {404, 409} ==> CredentialErrorMessage(status) == SomethingWentWrong
  {
  }

  /** Avatar upload agrees with the taxonomy exactly where that gives "no connection" or "generic". */
  lemma AvatarErrorAgainstStatusClass(status: int)
    ensures StatusClass(status) in {CannotConnect, SomethingWentWrong} ==>
              AvatarErrorMessage(status) == StatusClass(status)
    ensures status in {400, 404, 409} ==> AvatarErrorMessage(status) == SomethingWentWrong
  {
  }

  /** The alert a failed call appends: danger, five seconds. */
  function FailureAlert(m: Message): Alert {
    Alert(m, Danger, 5, AlertRegion)
  }

  /** The alert a successful profile call appends: success, five seconds. */
  function SuccessAlert(m: Message): Alert {
    Alert(m, Success, 5, AlertRegion)
  }

  /** A request the page sends to the gateway. */
  datatype Request =
    | EditUser(user: map<string, Field>)
    | DeleteUser(user: map<string, Field>)
    | UploadAvatar(username: string, imageBytes: seq<bv8>)
    | ChangeUserPassword(username: string, oldPassword: string, newPassword: string)
    | LinkLibraryCard(userId: string, cardNumber: string, password: string)

  /**
   * What the file reader's `loadend` event carries: no target or no result,
   * a text result, or the bytes of an array buffer.
   */
  datatype ReadResult = Missing | Text(text: string) | Bytes(bytes: seq<bv8>)

  /** The password change guard: both passwords given, and different. */
  predicate PasswordChangeAllowed(oldPassword: string, newPassword: string) {
    oldPassword != "" && newPassword != "" && oldPassword != newPassword
  }

  /** The card-linking guard: card number and card password both given. */
  predicate CardLinkAllowed(cardNumber: string, cardPassword: string) {
    cardNumber != "" && cardPassword != ""
  }

  class ProfileComponent {
    var waiting: bool
    const user: User
    var userToEdit: map<string, Field>
    var form: EditInfo

    /** Gateway calls made, in order. */
    var requests: seq<Request>
    /** Alerts appended, in order. */
    var alerts: seq<Alert>
    /** Router navigations, as their single command. */
    var navigations: seq<string>
    /** Subscriptions taken on the session's profile stream. */
    var profileSubscriptions: nat
    /** Calls that ended the session. */
    var logOuts: nat

    /** Builds the page: sends a logged-out visitor to the login page, then starts the profile load. */
    constructor(isLoggedIn: bool)
      ensures fresh(user) && user.Value() == EmptyUser
      ensures userToEdit == map[] && form == BlankForm
      ensures waiting && profileSubscriptions == 1
      ensures requests == [] && alerts == [] && logOuts == 0
      ensures navigations == if isLoggedIn then [] else ["/login"]
    {
      user := new User();
      userToEdit := map[];
      form := BlankForm;
      waiting := false;
      requests, alerts, logOuts, profileSubscriptions := [], [], 0, 0;
      navigations := if isLoggedIn then [] else ["/login"];
      new;
      SetData();
    }

    /** `setData`: raises the busy flag and subscribes to the session's profile stream. */
    method SetData()
      modifies this`waiting, this`profileSubscriptions
      ensures waiting && profileSubscriptions == old(profileSubscriptions) + 1
    {
      waiting := true;
      profileSubscriptions := profileSubscriptions + 1;
    }

    /**
     * The profile stream delivers `data`: the read model takes it, the
     * buffer gets the username and an empty password, the form is seeded
     * with the seven editable fields, and the busy flag drops.
     */
    method CompleteLoad(data: UserData)
      modifies this`waiting, this`userToEdit, this`form, user
      ensures user.Value() == Assigned(old(user.Value()), data)
      ensures userToEdit == old(userToEdit)["username" := Str(data.username)]["password" := Str("")]
      ensures form == ProfileForm(data)
      ensures !waiting
    {
      user.SetValue(data);
      userToEdit := userToEdit["username" := Str(user.username)];
      userToEdit := userToEdit["password" := Str("")];
      form := ProfileForm(data);
      waiting := false;
    }

    /** The visitor edits the form controls. */
    method FillForm(f: EditInfo)
      modifies this`form
      ensures form == f
    {
      form := f;
    }

    /** `submitChange`: stage the form into the pending-edit buffer. */
    method SubmitChange()
      modifies this`userToEdit
      ensures userToEdit == Staged(old(userToEdit), form)
    {
      userToEdit := Staged(userToEdit, form);
    }

    /** `change`: submit the buffer as an edit. */
    method Change()
      modifies this`waiting, this`requests
      ensures waiting && requests == old(requests) + [EditUser(userToEdit)]
    {
      waiting := true;
      requests := requests + [EditUser(userToEdit)];
    }

    /**
     * The edit reply. Either way the buffer's password is cleared and one
     * alert is appended. On success the profile load is restarted, which
     * raises the busy flag again until `CompleteLoad`.
     */
    method CompleteChange(reply: Reply<()>)
      modifies this`waiting, this`userToEdit, this`alerts, this`profileSubscriptions
      ensures userToEdit == old(userToEdit)["password" := Str("")]
      ensures waiting <==> reply.Next?
      ensures reply.Next? ==> profileSubscriptions == old(profileSubscriptions) + 1 &&
                              alerts == old(alerts) + [SuccessAlert(ProfileUpdated)]
      ensures reply.Error? ==> profileSubscriptions == old(profileSubscriptions) &&
                               alerts == old(alerts) + [FailureAlert(EditErrorMessage(reply.status))]
    {
      waiting := false;
      match reply
      case Next(_) =>
        SetData();
        userToEdit := userToEdit["password" := Str("")];
        alerts := alerts + [SuccessAlert(ProfileUpdated)];
      case Error(status) =>
        userToEdit := userToEdit["password" := Str("")];
        alerts := alerts + [FailureAlert(EditErrorMessage(status))];
    }

    /** `delete`: submit the buffer as an account deletion. */
    method Delete()
      modifies this`waiting, this`requests
      ensures waiting && requests == old(requests) + [DeleteUser(userToEdit)]
    {
      waiting := true;
      requests := requests + [DeleteUser(userToEdit)];
    }

    /** `logOut`: navigate to the home page. */
    method LogOut()
      modifies this`navigations
      ensures navigations == old(navigations) + ["home"]
    {
      navigations := navigations + ["home"];
    }

    /**
     * The deletion reply. Success ends the session, goes home and keeps the
     * buffer as it was; failure clears the buffer's password. One alert
     * either way.
     */
    method CompleteDelete(reply: Reply<()>)
      modifies this`waiting, this`userToEdit, this`alerts, this`navigations, this`logOuts
      ensures !waiting
      ensures reply.Next? ==> userToEdit == old(userToEdit) && logOuts == old(logOuts) + 1 &&
                              navigations == old(navigations) + ["home"] &&
                              alerts == old(alerts) + [SuccessAlert(AccountDeleted)]
      ensures reply.Error? ==> userToEdit == old(userToEdit)["password" := Str("")] &&
                               logOuts == old(logOuts) && navigations == old(navigations) &&
                               alerts == old(alerts) + [FailureAlert(DeleteErrorMessage(reply.status))]
    {
      waiting := false;
      match reply
      case Next(_) =>
        logOuts := logOuts + 1;
        LogOut();
        alerts := alerts + [SuccessAlert(AccountDeleted)];
      case Error(status) =>
        userToEdit := userToEdit["password" := Str("")];
        alerts := alerts + [FailureAlert(DeleteErrorMessage(status))];
    }

    /** `uploadAvatar`: a file was chosen; the flag goes up while it is read. */
    method UploadAvatar()
      modifies this`waiting
      ensures waiting
    {
      waiting := true;
    }

    /**
     * The reader's `loadend`. Only an array-buffer result is uploaded;
     * anything else returns at once and leaves the busy flag as it is.
     */
    method AvatarRead(result: ReadResult)
      modifies this`requests
      ensures result.Bytes? ==> requests == old(requests) + [Request.UploadAvatar(user.username, result.bytes)]
      ensures !result.Bytes? ==> requests == old(requests)
    {
      if !result.Bytes? {
        return;
      }
      requests := requests + [Request.UploadAvatar(user.username, result.bytes)];
    }

    /** The upload reply: success stores the new avatar reference and nothing else of the user. */
    method CompleteAvatarUpload(reply: Reply<string>)
      modifies this`waiting, this`alerts, user`avatarImage
      ensures !waiting
      ensures reply.Next? ==> user.avatarImage == Some(reply.value) &&
                              alerts == old(alerts) + [SuccessAlert(AvatarChanged)]
      ensures reply.Error? ==> user.avatarImage == old(user.avatarImage) &&
                               alerts == old(alerts) + [FailureAlert(AvatarErrorMessage(reply.status))]
    {
      waiting := false;
      match reply
      case Next(avatar) =>
        user.avatarImage := Some(avatar);
        alerts := alerts + [SuccessAlert(AvatarChanged)];
      case Error(status) =>
        alerts := alerts + [FailureAlert(AvatarErrorMessage(status))];
    }

    /** `changePassword`: a guarded request; a rejected guard changes nothing at all. */
    method ChangePassword(oldPassword: string, newPassword: string)
      modifies this`waiting, this`requests
      ensures !PasswordChangeAllowed(oldPassword, newPassword) ==>
                waiting == old(waiting) && requests == old(requests)
      ensures PasswordChangeAllowed(oldPassword, newPassword) ==>
                waiting && requests == old(requests) + [ChangeUserPassword(user.username, oldPassword, newPassword)]
    {
      if oldPassword == "" || newPassword == "" || oldPassword == newPassword {
        return;
      }
      waiting := true;
      requests := requests + [ChangeUserPassword(user.username, oldPassword, newPassword)];
    }

    /** The password change reply. */
    method CompleteChangePassword(reply: Reply<()>)
      modifies this`waiting, this`alerts
      ensures !waiting
      ensures reply.Next? ==> alerts == old(alerts) + [SuccessAlert(PasswordChanged)]
      ensures reply.Error? ==> alerts == old(alerts) + [FailureAlert(CredentialErrorMessage(reply.status))]
    {
      waiting := false;
      match reply
      case Next(_) =>
        alerts := alerts + [SuccessAlert(PasswordChanged)];
      case Error(status) =>
        alerts := alerts + [FailureAlert(CredentialErrorMessage(status))];
    }

    /** `linkLibraryCard`: a guarded request; a rejected guard changes nothing at all. */
    method LinkLibraryCard(cardNumber: string, cardPassword: string)
      modifies this`waiting, this`requests
      ensures !CardLinkAllowed(cardNumber, cardPassword) ==>
                waiting == old(waiting) && requests == old(requests)
      ensures CardLinkAllowed(cardNumber, cardPassword) ==>
                waiting && requests == old(requests) + [Request.LinkLibraryCard(user.id, cardNumber, cardPassword)]
    {
      if cardNumber == "" || cardPassword == "" {
        return;
      }
      waiting := true;
      requests := requests + [Request.LinkLibraryCard(user.id, cardNumber, cardPassword)];
    }

    /** The card-linking reply: success attaches the returned card and nothing else of the user. */
    method CompleteLinkCard(reply: Reply<LibraryCard>)
      modifies this`waiting, this`alerts, user`libraryCard
      ensures !waiting
      ensures reply.Next? ==> user.libraryCard == Some(reply.value) &&
                              alerts == old(alerts) + [SuccessAlert(CardLinked)]
      ensures reply.Error? ==> user.libraryCard == old(user.libraryCard) &&
                               alerts == old(alerts) + [FailureAlert(CredentialErrorMessage(reply.status))]
    {
      waiting := false;
      match reply
      case Next(card) =>
        user.libraryCard := Some(card);
        alerts := alerts + [SuccessAlert(CardLinked)];
      case Error(status) =>
        alerts := alerts + [FailureAlert(CredentialErrorMessage(status))];
    }
  }
}
