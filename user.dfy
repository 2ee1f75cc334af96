/**
 * The User model: a profile record as the server sends it, and the mutable
 * User object the profile page keeps, with its `value` setter.
 */
module Users {
  import opened Wrappers
  import opened LibraryCards

  /** A profile record as delivered by the session provider. */
  datatype UserData = UserData(
    id: string,
    username: string,
    password: string,
    lastName: Option<string>,
    firstName: string,
    dateOfBirth: Option<string>,
    gender: Option<bool>,
    address: Option<string>,
    email: Option<string>,
    phoneNumber: Option<string>,
    avatarImage: Option<string>,
    libraryCard: Option<LibraryCard>,
    cardPassword: string,
    favoriteBooks: seq<string>)

  /** The state of `new User()`. */
  const EmptyUser: UserData := UserData("", "", "", None, "", None, None, None, None, None, None, None, "", [])

  /**
   * The state after `value = v`: the thirteen listed fields come from `v`,
   * the library card is the one the object already had.
   */
  function Assigned(current: UserData, v: UserData): (r: UserData)
    ensures r == v.(libraryCard := current.libraryCard)
  {
    UserData(v.id, v.username, v.password, v.lastName, v.firstName, v.dateOfBirth, v.gender,
             v.address, v.email, v.phoneNumber, v.avatarImage, current.libraryCard,
             v.cardPassword, v.favoriteBooks)
  }

  /** Assigning the same record twice is the same as assigning it once. */
  lemma AssignedIdempotent(current: UserData, v: UserData)
    ensures Assigned(Assigned(current, v), v) == Assigned(current, v)
  {
  }

  /** Assignment never touches the library card, whatever the incoming record holds. */
  lemma AssignedKeepsLibraryCard(current: UserData, v: UserData)
    ensures Assigned(current, v).libraryCard == current.libraryCard
    ensures Assigned(current, v).(libraryCard := v.libraryCard) == v
  {
  }

  class User {
    var id: string
    var username: string
    var password: string
    var lastName: Option<string>
    var firstName: string
    var dateOfBirth: Option<string>
    var gender: Option<bool>
    var address: Option<string>
    var email: Option<string>
    var phoneNumber: Option<string>
    var avatarImage: Option<string>
    var libraryCard: Option<LibraryCard>
    var cardPassword: string
    var favoriteBooks: seq<string>

    /** The object's fields as one record. */
    function Value(): UserData
      reads this
    {
      UserData(id, username, password, lastName, firstName, dateOfBirth, gender,
               address, email, phoneNumber, avatarImage, libraryCard, cardPassword, favoriteBooks)
    }

    /** `new User(...)`: each argument is stored unchanged, with the source's defaults. */
    constructor(
      id: string := "",
      username: string := "",
      password: string := "",
      lastName: Option<string> := None,
      firstName: string := "",
      dateOfBirth: Option<string> := None,
      gender: Option<bool> := None,
      address: Option<string> := None,
      email: Option<string> := None,
      phoneNumber: Option<string> := None,
      avatarImage: Option<string> := None,
      libraryCard: Option<LibraryCard> := None,
      cardPassword: string := "",
      favoriteBooks: seq<string> := [])
      ensures Value() == UserData(id, username, password, lastName, firstName, dateOfBirth, gender,
                                  address, email, phoneNumber, avatarImage, libraryCard,
                                  cardPassword, favoriteBooks)
    {
      this.id := id;
      this.username := username;
      this.password := password;
      this.lastName := lastName;
      this.firstName := firstName;
      this.dateOfBirth := dateOfBirth;
      this.gender := gender;
      this.address := address;
      this.email := email;
      this.phoneNumber := phoneNumber;
      this.avatarImage := avatarImage;
      this.libraryCard := libraryCard;
      this.cardPassword := cardPassword;
      this.favoriteBooks := favoriteBooks;
    }

    /** The `value` setter: overwrites thirteen fields in place and leaves the card alone. */
    method SetValue(v: UserData)
      modifies this
      ensures Value() == v.(libraryCard := old(libraryCard))
      ensures Value() == Assigned(old(Value()), v)
    {
      id, username, password, lastName, firstName, dateOfBirth, gender :=
        v.id, v.username, v.password, v.lastName, v.firstName, v.dateOfBirth, v.gender;
      address, email, phoneNumber, avatarImage, cardPassword, favoriteBooks :=
        v.address, v.email, v.phoneNumber, v.avatarImage, v.cardPassword, v.favoriteBooks;
    }
  }

  /** `new User()` yields the empty profile. */
  method NewEmptyUser() returns (u: User)
    ensures fresh(u) && u.Value() == EmptyUser
  {
    u := new User();
  }
}
