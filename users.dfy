/** internal/data/users.go: the user record, the validation rules for its
    fields, the anonymous-user sentinel and the database-error mapping. */
module Users {
  import opened Wrappers
  import opened Models
  import opened Validator
  import Base32

  /** password: the plaintext (nil when absent) and the bcrypt hash (nil when unset). */
  datatype Password = Password(plaintext: Option<string>, hash: Option<seq<Base32.byte>>)

  /** The columns a users row holds. */
  datatype UserRow = UserRow(
    id: int, createdAt: int, name: string, email: string,
    hash: seq<Base32.byte>, activated: bool, version: int)

  class User {
    var id: int
    var createdAt: int
    var name: string
    var email: string
    var password: Password
    var activated: bool
    var version: int

    /** The zero value &User{}, from which the AnonymousUser sentinel is made. */
    constructor Zero()
      ensures id == 0 && createdAt == 0 && name == "" && email == ""
      ensures password == Password(None, None) && !activated && version == 0
    {
      id, createdAt, name, email := 0, 0, "", "";
      password := Password(None, None);
      activated, version := false, 0;
    }

    /** A user scanned from a row (its plaintext is never stored). */
    constructor FromRow(row: UserRow)
      ensures id == row.id && createdAt == row.createdAt && name == row.name
      ensures email == row.email && password == Password(None, Some(row.hash))
      ensures activated == row.activated && version == row.version
    {
      id, createdAt, name, email := row.id, row.createdAt, row.name, row.email;
      password := Password(None, Some(row.hash));
      activated, version := row.activated, row.version;
    }

    /** IsAnonymous compares addresses: it holds only for the sentinel object
        itself, whatever the fields of this user are. */
    predicate IsAnonymous(anonymous: User) {
      this == anonymous
    }
  }

  /** A zero-valued user at another address is not anonymous; the sentinel is. */
  lemma ZeroUserIsNotAnonymous(anonymous: User, u: User)
    requires u != anonymous
    ensures !u.IsAnonymous(anonymous) && anonymous.IsAnonymous(anonymous)
  {
  }

  /** The error map after ValidateEmail: "cannot be empty" for "", "is invalid"
      for a non-empty address EmailRX rejects, no change for any other key. */
  function EmailChecks(errors: map<string, string>, email: string): (r: map<string, string>)
    ensures forall k :: k != "email" ==> (k in r <==> k in errors) && (k in r ==> r[k] == errors[k])
    ensures "email" in errors ==> "email" in r && r["email"] == errors["email"]
    ensures "email" !in errors ==> ("email" in r <==> email == "" || !EmailRX(email))
    ensures "email" !in errors && email == "" ==> r["email"] == "cannot be empty"
    ensures "email" !in errors && email != "" && !EmailRX(email) ==> r["email"] == "is invalid"
  {
    var e := Checked(errors, email != "", "email", "cannot be empty");
    Checked(e, Matches(email, EmailRX), "email", "is invalid")
  }

  /** The error map after ValidatePlaintextPassword: one "password" message
      for an empty, a short (1-7 bytes) or a long (over 72 bytes) password. */
  function PasswordChecks(errors: map<string, string>, plaintext: string): (r: map<string, string>)
    ensures forall k :: k != "password" ==> (k in r <==> k in errors) && (k in r ==> r[k] == errors[k])
    ensures "password" in errors ==> "password" in r && r["password"] == errors["password"]
    ensures "password" !in errors ==> ("password" in r <==> |plaintext| < 8 || |plaintext| > 72)
    ensures "password" !in errors && plaintext == "" ==> r["password"] == "cannot be empty"
    ensures "password" !in errors && 1 <= |plaintext| < 8 ==> r["password"] == "cannot be less than 8 bytes"
    ensures "password" !in errors && |plaintext| > 72 ==> r["password"] == "cannot be greater than 72 bytes"
  {
    var e1 := Checked(errors, plaintext != "", "password", "cannot be empty");
    var e2 := Checked(e1, |plaintext| >= 8, "password", "cannot be less than 8 bytes");
    Checked(e2, |plaintext| <= 72, "password", "cannot be greater than 72 bytes")
  }

  /** The "name" checks of ValidateUser: an error exactly when the name is
      empty or over 500 bytes, the empty message taking precedence. */
  function NameChecks(errors: map<string, string>, name: string): (r: map<string, string>)
    ensures forall k :: k != "name" ==> (k in r <==> k in errors) && (k in r ==> r[k] == errors[k])
    ensures "name" in errors ==> "name" in r && r["name"] == errors["name"]
    ensures "name" !in errors ==> ("name" in r <==> name == "" || |name| > 500)
    ensures "name" !in errors && name == "" ==> r["name"] == "cannot be empty"
    ensures "name" !in errors && |name| > 500 ==> r["name"] == "cannot be more than 500 bytes long"
  {
    var e := Checked(errors, name != "", "name", "cannot be empty");
    Checked(e, |name| <= 500, "name", "cannot be more than 500 bytes long")
  }

  /** The error map after ValidateUser's checks: the name rules, the email
      rules, and the password rules only when a plaintext is present. The
      lemmas below state what each key ends up holding. */
  function UserChecks(errors: map<string, string>, name: string, email: string, plaintext: Option<string>): map<string, string> {
    var e := EmailChecks(NameChecks(errors, name), email);
    if plaintext.Some? then PasswordChecks(e, plaintext.value) else e
  }

  /** No key other than the three checked ones changes. */
  lemma UserChecksOtherKeys(errors: map<string, string>, name: string, email: string, plaintext: Option<string>)
    ensures var r := UserChecks(errors, name, email, plaintext);
      forall k :: k != "name" && k != "email" && k != "password" ==>
        (k in r <==> k in errors) && (k in r ==> r[k] == errors[k])
  {
  }

  /** The "name" entry is the one the name rules give. */
  lemma UserChecksName(errors: map<string, string>, name: string, email: string, plaintext: Option<string>)
    ensures var r := UserChecks(errors, name, email, plaintext);
      ("name" in r <==> "name" in NameChecks(errors, name))
      && ("name" in r ==> r["name"] == NameChecks(errors, name)["name"])
  {
    var e1 := NameChecks(errors, name);
    var e2 := EmailChecks(e1, email);
    assert ("name" in e2 <==> "name" in e1) && ("name" in e2 ==> e2["name"] == e1["name"]);
  }

  /** The "email" entry is the one the email rules give. */
  lemma UserChecksEmail(errors: map<string, string>, name: string, email: string, plaintext: Option<string>)
    ensures var r := UserChecks(errors, name, email, plaintext);
      ("email" in r <==> "email" in EmailChecks(errors, email))
      && ("email" in r ==> r["email"] == EmailChecks(errors, email)["email"])
  {
    var e1 := NameChecks(errors, name);
    assert ("email" in e1 <==> "email" in errors) && ("email" in e1 ==> e1["email"] == errors["email"]);
    EmailChecksLocal(e1, errors, email);
  }

  /** Without a plaintext the "password" entry is as before; with one it is
      the one the password rules give. */
  lemma UserChecksPassword(errors: map<string, string>, name: string, email: string, plaintext: Option<string>)
    ensures var r := UserChecks(errors, name, email, plaintext);
      plaintext.None? ==>
        ("password" in r <==> "password" in errors) && ("password" in r ==> r["password"] == errors["password"])
    ensures var r := UserChecks(errors, name, email, plaintext);
      plaintext.Some? ==>
        ("password" in r <==> "password" in PasswordChecks(errors, plaintext.value))
        && ("password" in r ==> r["password"] == PasswordChecks(errors, plaintext.value)["password"])
  {
    var e2 := EmailChecks(NameChecks(errors, name), email);
    assert ("password" in e2 <==> "password" in errors) && ("password" in e2 ==> e2["password"] == errors["password"]);
    if plaintext.Some? {
      PasswordChecksLocal(e2, errors, plaintext.value);
    }
  }

  /** The email rules read only the "email" entry of the map. */
  lemma EmailChecksLocal(a: map<string, string>, b: map<string, string>, email: string)
    requires "email" in a <==> "email" in b
    requires "email" in a ==> a["email"] == b["email"]
    ensures "email" in EmailChecks(a, email) <==> "email" in EmailChecks(b, email)
    ensures "email" in EmailChecks(a, email) ==>
      EmailChecks(a, email)["email"] == EmailChecks(b, email)["email"]
  {
  }

  /** The password rules read only the "password" entry of the map. */
  lemma PasswordChecksLocal(a: map<string, string>, b: map<string, string>, plaintext: string)
    requires "password" in a <==> "password" in b
    requires "password" in a ==> a["password"] == b["password"]
    ensures "password" in PasswordChecks(a, plaintext) <==> "password" in PasswordChecks(b, plaintext)
    ensures "password" in PasswordChecks(a, plaintext) ==>
      PasswordChecks(a, plaintext)["password"] == PasswordChecks(b, plaintext)["password"]
  {
  }

  method ValidateName(v: Validator, name: string)
    modifies v
    ensures v.errors == NameChecks(old(v.errors), name)
  {
    v.Check(name != "", "name", "cannot be empty");
    v.Check(|name| <= 500, "name", "cannot be more than 500 bytes long");
  }

  method ValidateEmail(v: Validator, email: string)
    modifies v
    ensures v.errors == EmailChecks(old(v.errors), email)
  {
    v.Check(email != "", "email", "cannot be empty");
    v.Check(Matches(email, EmailRX), "email", "is invalid");
  }

  method ValidatePlaintextPassword(v: Validator, plaintext: string)
    modifies v
    ensures v.errors == PasswordChecks(old(v.errors), plaintext)
  {
    v.Check(plaintext != "", "password", "cannot be empty");
    v.Check(|plaintext| >= 8, "password", "cannot be less than 8 bytes");
    v.Check(|plaintext| <= 72, "password", "cannot be greater than 72 bytes");
  }

  /** ValidateUser records every field error, then panics when the password
      hash is nil; the errors recorded before the panic stay in the validator. */
  method ValidateUser(v: Validator, u: User) returns (outcome: Completion)
    modifies v
    ensures v.errors == UserChecks(old(v.errors), u.name, u.email, u.password.plaintext)
    ensures outcome == if u.password.hash.None? then Panicked("missing password hash for user.") else Returned
  {
    ValidateName(v, u.name);
    ValidateEmail(v, u.email);
    if u.password.plaintext.Some? {
      ValidatePlaintextPassword(v, u.password.plaintext.value);
    }
    if u.password.hash.None? {
      return Panicked("missing password hash for user.");
    }
    return Returned;
  }

  /** InsertUser's switch: the users_email_key violation becomes
      ErrDuplicateEmail; every other error, a missing row included, passes through. */
  function InsertError(e: DbError): (r: AppError)
    ensures r == DuplicateEmail <==> e == DriverError(DuplicateEmailMessage)
    ensures r != DuplicateEmail ==> r == Db(e)
  {
    if e.DriverError? && e.message == DuplicateEmailMessage then DuplicateEmail else Db(e)
  }

  /** UpdateUser's switch: a missing row (the version no longer matches)
      becomes ErrEditConflict, the users_email_key violation ErrDuplicateEmail,
      every other error passes through. */
  function UpdateError(e: DbError): (r: AppError)
    ensures r == EditConflict <==> e == ErrNoRows
    ensures r == DuplicateEmail <==> e == DriverError(DuplicateEmailMessage)
    ensures r != EditConflict && r != DuplicateEmail ==> r == Db(e)
  {
    if e == ErrNoRows then EditConflict
    else if e.DriverError? && e.message == DuplicateEmailMessage then DuplicateEmail
    else Db(e)
  }

  /** GetUserByEmail, GetUserByID, UpdateUserForToken and GetForToken: the
      scanned row as a new user, or the mapped error and no user. */
  method GetUser(scan: Result<UserRow, DbError>) returns (u: User?, err: Option<AppError>)
    ensures scan.Ok? ==> u != null && fresh(u) && err == None
    ensures scan.Ok? ==> u.id == scan.value.id && u.createdAt == scan.value.createdAt
    ensures scan.Ok? ==> u.name == scan.value.name && u.email == scan.value.email
    ensures scan.Ok? ==> u.password == Password(None, Some(scan.value.hash))
    ensures scan.Ok? ==> u.activated == scan.value.activated && u.version == scan.value.version
    ensures scan.Err? ==> u == null && err == Some(LookupError(scan.error))
  {
    if scan.Err? {
      return null, Some(LookupError(scan.error));
    }
    u := new User.FromRow(scan.value);
    err := None;
  }

  /** UpdateUser: on success the user's version becomes the one RETURNING
      gave back; on failure the mapped error, the version left as it was. */
  method UpdateUser(u: User, scan: Result<int, DbError>) returns (err: Option<AppError>)
    modifies u
    ensures scan.Ok? ==> err == None && u.version == scan.value
    ensures scan.Err? ==> err == Some(UpdateError(scan.error)) && u.version == old(u.version)
    ensures u.id == old(u.id) && u.createdAt == old(u.createdAt)
    ensures u.name == old(u.name) && u.email == old(u.email)
    ensures u.password == old(u.password) && u.activated == old(u.activated)
  {
    if scan.Err? {
      return Some(UpdateError(scan.error));
    }
    u.version := scan.value;
    return None;
  }
}
