/** The user serializer: creating a user demands a non-empty password, and
    updating one merges the supplied fields into the stored record while the
    username and the id stay as they are. */
module UserSerializers {
  import opened Wrappers

  /** The stored password. The real store keeps a salted hash; the model
      records which raw password it was last set from. */
  datatype Password = Unusable | Hashed(raw: string)

  /** The serializer's validated data. A field that was not supplied is
      None. */
  datatype UserData = UserData(
    username: Option<string>,
    email: Option<string>,
    firstName: Option<string>,
    lastName: Option<string>,
    password: Option<string>,
    isActive: Option<bool>,
    isSuperuser: Option<bool>)

  /** Python truthiness of an optional string: present and not empty. */
  predicate Supplied(s: Option<string>) {
    s.Some? && s.value != ""
  }

  /** The stored columns of a user. */
  datatype UserRecord = UserRecord(
    id: nat,
    username: string,
    email: string,
    firstName: string,
    lastName: string,
    isActive: bool,
    isSuperuser: bool,
    password: Password)

  datatype CreateError = PasswordRequired

  /** `create`: refuse missing or empty passwords, otherwise store the
      supplied fields, with the user model's defaults for the rest. */
  function Created(data: UserData, id: nat): (r: Result<UserRecord, CreateError>)
    requires data.username.Some?
    ensures r.Err? <==> !Supplied(data.password)
    ensures r.Ok? ==>
      && r.value.id == id
      && r.value.username == data.username.value
      && r.value.password == Hashed(data.password.value)
      && r.value.password != Unusable
    // a supplied field is stored; a missing one takes the user model's default
    ensures r.Ok? && data.email.Some? ==> r.value.email == data.email.value
    ensures r.Ok? && data.email.None? ==> r.value.email == ""
    ensures r.Ok? && data.firstName.Some? ==> r.value.firstName == data.firstName.value
    ensures r.Ok? && data.firstName.None? ==> r.value.firstName == ""
    ensures r.Ok? && data.lastName.Some? ==> r.value.lastName == data.lastName.value
    ensures r.Ok? && data.lastName.None? ==> r.value.lastName == ""
    ensures r.Ok? && data.isActive.Some? ==> r.value.isActive == data.isActive.value
    ensures r.Ok? && data.isActive.None? ==> r.value.isActive
    ensures r.Ok? && data.isSuperuser.Some? ==> r.value.isSuperuser == data.isSuperuser.value
    ensures r.Ok? && data.isSuperuser.None? ==> !r.value.isSuperuser
  {
    if !Supplied(data.password) then Err(PasswordRequired)
    else
      Ok(UserRecord(
        id,
        data.username.value,
        Or(data.email, ""),
        Or(data.firstName, ""),
        Or(data.lastName, ""),
        Or(data.isActive, true),
        Or(data.isSuperuser, false),
        Hashed(data.password.value)))
  }

  /** `validated_data.get(key, fallback)`. */
  function Or<T>(o: Option<T>, fallback: T): T {
    match o
    case Some(v) => v
    case None => fallback
  }

  /** `update`: each of email, first name, last name, active and superuser
      takes the supplied value or keeps the old one; the password is reset
      only when a non-empty one is supplied; the username and the id never
      change. */
  function Merge(u: UserRecord, data: UserData): (r: UserRecord)
    ensures r.id == u.id && r.username == u.username
    ensures data.email.Some? ==> r.email == data.email.value
    ensures data.email.None? ==> r.email == u.email
    ensures data.firstName.Some? ==> r.firstName == data.firstName.value
    ensures data.firstName.None? ==> r.firstName == u.firstName
    ensures data.lastName.Some? ==> r.lastName == data.lastName.value
    ensures data.lastName.None? ==> r.lastName == u.lastName
    ensures data.isActive.Some? ==> r.isActive == data.isActive.value
    ensures data.isActive.None? ==> r.isActive == u.isActive
    ensures data.isSuperuser.Some? ==> r.isSuperuser == data.isSuperuser.value
    ensures data.isSuperuser.None? ==> r.isSuperuser == u.isSuperuser
    ensures Supplied(data.password) ==> r.password == Hashed(data.password.value)
    ensures !Supplied(data.password) ==> r.password == u.password
  {
    u.(email := Or(data.email, u.email),
       firstName := Or(data.firstName, u.firstName),
       lastName := Or(data.lastName, u.lastName),
       isActive := Or(data.isActive, u.isActive),
       isSuperuser := Or(data.isSuperuser, u.isSuperuser),
       password := if Supplied(data.password) then Hashed(data.password.value) else u.password)
  }

  /** Sending the same update twice leaves the record as sending it once. */
  lemma MergeIdempotent(u: UserRecord, data: UserData)
    ensures Merge(Merge(u, data), data) == Merge(u, data)
  {
  }

  /** A user row, updated field by field in place. */
  class User {
    const id: nat
    var username: string
    var email: string
    var firstName: string
    var lastName: string
    var isActive: bool
    var isSuperuser: bool
    var password: Password

    function Record(): UserRecord
      reads this
    {
      UserRecord(id, username, email, firstName, lastName, isActive, isSuperuser, password)
    }

    constructor (r: UserRecord)
      ensures Record() == r
    {
      id := r.id;
      username := r.username;
      email := r.email;
      firstName := r.firstName;
      lastName := r.lastName;
      isActive := r.isActive;
      isSuperuser := r.isSuperuser;
      password := r.password;
    }

    /** `set_password`: replaces the stored password and nothing else. */
    method SetPassword(raw: string)
      modifies this`password
      ensures password == Hashed(raw)
    {
      password := Hashed(raw);
    }

    /** The serializer's `update` on this user. */
    method Update(data: UserData)
      modifies this
      ensures Record() == Merge(old(Record()), data)
    {
      email := Or(data.email, email);
      firstName := Or(data.firstName, firstName);
      lastName := Or(data.lastName, lastName);
      isActive := Or(data.isActive, isActive);
      isSuperuser := Or(data.isSuperuser, isSuperuser);
      if Supplied(data.password) {
        SetPassword(data.password.value);
      }
    }
  }

  /** The serializer's `create`: a fresh user, or the password error. */
  method Create(data: UserData, id: nat) returns (r: Result<User, CreateError>)
    requires data.username.Some?
    ensures r.Err? ==> Created(data, id) == Err(r.error)
    ensures r.Ok? ==> fresh(r.value) && Created(data, id) == Ok(r.value.Record())
  {
    var checked := Created(data, id);
    if checked.Err? {
      return Err(checked.error);
    }
    var user := new User(checked.value);
    return Ok(user);
  }
}
