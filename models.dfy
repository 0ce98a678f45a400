/** The `User` record of freework/users/models.py: Django's `AbstractUser` with
    `first_name` and `last_name` removed, an optional `name` and a unique `email`. */
module Models {
  import opened Wrappers

  /** A value given for one of the record's remaining model fields. */
  datatype Value = Null | Flag(flag: bool) | Number(number: int) | Text(text: string)

  /** The encoded password column. Only the credential-hashing subsystem writes it,
      so it is a type of its own and can never hold a plaintext `string`. */
  datatype PasswordState = PasswordState(encoded: string)

  /** One user row. `fields` holds every model field other than the four the
      manager passes by name (the flags, `last_login`, `date_joined`, `id`). */
  datatype User = User(
    email: string,
    username: string,
    name: string,
    password: PasswordState,
    fields: map<string, Value>)

  /** The exceptions the provisioning path can raise. */
  datatype Error =
    | ValueError(message: string)           // a guard clause of create_user
    | TypeError(unexpected: set<string>)    // keyword arguments the model does not have
    | IntegrityError(column: string)        // a unique constraint refused the insert

  const IS_STAFF := "is_staff"
  const IS_SUPERUSER := "is_superuser"
  const IS_ACTIVE := "is_active"

  /** The model fields that can be given as keyword arguments besides `email`,
      `username`, `name` and `password`. `first_name` and `last_name` are not
      among them: the model sets both to None, which removes the inherited fields. */
  const EXTRA_FIELDS: set<string> :=
    {"id", "last_login", IS_SUPERUSER, IS_STAFF, IS_ACTIVE, "date_joined"}

  /** The defaults `AbstractUser` gives the flags of a record built without them. */
  const DEFAULTS: map<string, Value> :=
    map[IS_STAFF := Flag(false), IS_SUPERUSER := Flag(false), IS_ACTIVE := Flag(true)]

  /** The password column of a record that set_password has not yet written. */
  const BLANK_PASSWORD := PasswordState("")

  /** `User.__str__`: a user is shown by its username. */
  function ToString(u: User): (s: string)
  {
    u.username
  }

  /** The record carries only fields the model declares. */
  predicate HasModelFields(u: User)
  {
    u.fields.Keys <= EXTRA_FIELDS
  }

  lemma NoPersonalNameFields(u: User)
    requires HasModelFields(u)
    ensures "first_name" !in u.fields && "last_name" !in u.fields
  {
  }

  /** Calling the model class with keyword arguments, as `self.model(...)` does:
      every given field is set, the flags keep their defaults unless given, and a
      keyword that names no field raises TypeError listing all such keywords. */
  function NewUser(email: string, username: string, name: string, extra: map<string, Value>)
    : (r: Result<User, Error>)
    ensures r.Success? <==> extra.Keys <= EXTRA_FIELDS
    ensures r.Failure? ==> r.error == TypeError(extra.Keys - EXTRA_FIELDS)
    ensures r.Success? ==>
      && r.value.email == email && r.value.username == username && r.value.name == name
      && r.value.password == BLANK_PASSWORD
      && r.value.fields.Keys == extra.Keys + DEFAULTS.Keys
      && (forall k :: k in extra ==> r.value.fields[k] == extra[k])
      && (forall k :: k in DEFAULTS && k !in extra ==> r.value.fields[k] == DEFAULTS[k])
      && HasModelFields(r.value)
  {
    if extra.Keys <= EXTRA_FIELDS then
      Success(User(email, username, name, BLANK_PASSWORD, DEFAULTS + extra))
    else
      Failure(TypeError(extra.Keys - EXTRA_FIELDS))
  }

  /** The keys of the unique index on `email`: one per stored row. */
  function EmailsOf(users: seq<User>): (r: set<string>)
    ensures forall i :: 0 <= i < |users| ==> users[i].email in r
    ensures forall e :: e in r ==> exists i :: 0 <= i < |users| && users[i].email == e
  {
    if users == [] then {} else {users[0].email} + EmailsOf(users[1..])
  }

  /** `email = models.EmailField(unique=True)`: no two rows share an email. */
  predicate EmailsUnique(users: seq<User>)
  {
    forall i, j :: 0 <= i < j < |users| ==> users[i].email != users[j].email
  }

  /** What holds of every table the manager works on. */
  predicate StoreValid(users: seq<User>)
  {
    EmailsUnique(users) && forall i :: 0 <= i < |users| ==> HasModelFields(users[i])
  }

  /** `save()` of a new record: the unique constraint refuses an email that is
      already stored; otherwise the row is inserted. */
  function SaveOutcome(users: seq<User>, u: User): (r: Result<User, Error>)
    ensures r.Success? <==> forall i :: 0 <= i < |users| ==> users[i].email != u.email
    ensures r.Success? ==> r.value == u
    ensures r.Failure? ==> r.error == IntegrityError("email")
  {
    if u.email in EmailsOf(users) then Failure(IntegrityError("email")) else Success(u)
  }

  lemma {:induction false} EmailsOfBound(users: seq<User>)
    ensures |EmailsOf(users)| <= |users|
  {
    if users != [] {
      EmailsOfBound(users[1..]);
    }
  }

  /** Emails are unique exactly when the rest of the table is unique and the
      first row's email is not among its keys. */
  lemma UniqueFirstAndRest(users: seq<User>)
    requires users != []
    ensures EmailsUnique(users) <==> EmailsUnique(users[1..]) && users[0].email !in EmailsOf(users[1..])
  {
    var rest := users[1..];
    if EmailsUnique(users) {
      forall i, j | 0 <= i < j < |rest| ensures rest[i].email != rest[j].email {
        assert rest[i] == users[i + 1] && rest[j] == users[j + 1];
      }
    }
    if EmailsUnique(rest) && users[0].email !in EmailsOf(rest) {
      forall i, j | 0 <= i < j < |users| ensures users[i].email != users[j].email {
        assert users[j] == rest[j - 1];
        if i > 0 {
          assert users[i] == rest[i - 1];
        }
      }
    }
  }

  /** The unique index has as many keys as the table has rows exactly when no
      two rows share an email. So on every table `UserManager.Valid()` admits,
      each row owns exactly one key of the index. */
  lemma {:induction false} UniqueIndexSize(users: seq<User>)
    ensures EmailsUnique(users) <==> |EmailsOf(users)| == |users|
  {
    if users != [] {
      var rest := users[1..];
      UniqueIndexSize(rest);
      EmailsOfBound(rest);
      UniqueFirstAndRest(users);
      assert EmailsOf(users) == {users[0].email} + EmailsOf(rest);
    }
  }

  /** Inserting a record with a fresh email and the model's fields keeps the table valid. */
  lemma InsertKeepsStoreValid(users: seq<User>, u: User)
    requires StoreValid(users) && HasModelFields(u)
    requires SaveOutcome(users, u).Success?
    ensures StoreValid(users + [u])
  {
    var s := users + [u];
    forall i, j | 0 <= i < j < |s| ensures s[i].email != s[j].email {
      if j == |users| {
        assert s[i] == users[i];
      } else {
        assert s[i] == users[i] && s[j] == users[j];
      }
    }
    forall i | 0 <= i < |s| ensures HasModelFields(s[i]) {
      if i < |users| {
        assert s[i] == users[i];
      }
    }
  }
}
