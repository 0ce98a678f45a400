/** `UserManager` of freework/users/managers.py: account provisioning for
    regular users and superusers. `normalize_email` and `set_password` are
    framework code whose internals are not part of this model; the manager
    receives them as function values and nothing proved here depends on them. */
module Managers {
  import opened Wrappers
  import opened Models

  type EmailNormalizer = string -> string
  type PasswordHasher = Option<string> -> PasswordState

  const EMAIL_REQUIRED := "The Email field must be set"
  const USERNAME_REQUIRED := "The Username field must be set"

  /** The parameters `create_user` and `create_superuser` bind by name; Python's
      keyword binding keeps them out of `**extra_fields`. */
  const PARAMETERS: set<string> := {"email", "username", "name", "password"}

  /** `dict.setdefault`: an entry already present wins over the default. */
  function SetDefault(fields: map<string, Value>, key: string, default: Value): (r: map<string, Value>)
    ensures r.Keys == fields.Keys + {key}
    ensures key in fields ==> r[key] == fields[key]
    ensures key !in fields ==> r[key] == default
    ensures forall k :: k in fields ==> r[k] == fields[k]
  {
    if key in fields then fields else fields[key := default]
  }

  /** The extra fields `create_superuser` hands to `create_user`: both flags
      default to true, and values the caller gave are kept. */
  function SuperuserFields(extra: map<string, Value>): (r: map<string, Value>)
    ensures r.Keys == extra.Keys + {IS_STAFF, IS_SUPERUSER}
    ensures r[IS_STAFF] == if IS_STAFF in extra then extra[IS_STAFF] else Flag(true)
    ensures r[IS_SUPERUSER] == if IS_SUPERUSER in extra then extra[IS_SUPERUSER] else Flag(true)
    ensures forall k :: k in extra ==> r[k] == extra[k]
  {
    SetDefault(SetDefault(extra, IS_STAFF, Flag(true)), IS_SUPERUSER, Flag(true))
  }

  /** What `create_user` returns on a table holding `users`: the email guard,
      then the username guard, then building the record, then the insert. */
  function CreateUserOutcome(
    users: seq<User>, normalizeEmail: EmailNormalizer, setPassword: PasswordHasher,
    email: string, username: string, name: string, password: Option<string>,
    extra: map<string, Value>): (r: Result<User, Error>)
    ensures email == "" ==> r == Failure(ValueError(EMAIL_REQUIRED))
    ensures email != "" && username == "" ==> r == Failure(ValueError(USERNAME_REQUIRED))
    ensures email != "" && username != "" && !(extra.Keys <= EXTRA_FIELDS) ==>
      r == Failure(TypeError(extra.Keys - EXTRA_FIELDS))
    ensures (email != "" && username != "" && extra.Keys <= EXTRA_FIELDS
             && normalizeEmail(email) in EmailsOf(users)) ==> r == Failure(IntegrityError("email"))
    ensures r.Success? <==>
      && email != "" && username != "" && extra.Keys <= EXTRA_FIELDS
      && forall i :: 0 <= i < |users| ==> users[i].email != normalizeEmail(email)
    ensures r.Success? ==>
      && r.value.email == normalizeEmail(email)
      && r.value.username == username
      && r.value.name == name
      && r.value.password == setPassword(password)
      && r.value.fields.Keys == extra.Keys + DEFAULTS.Keys
      && (forall k :: k in extra ==> r.value.fields[k] == extra[k])
      && (forall k :: k in DEFAULTS && k !in extra ==> r.value.fields[k] == DEFAULTS[k])
      && HasModelFields(r.value)
  {
    if email == "" then
      Failure(ValueError(EMAIL_REQUIRED))
    else if username == "" then
      Failure(ValueError(USERNAME_REQUIRED))
    else
      match NewUser(normalizeEmail(email), username, name, extra)
      case Failure(e) => Failure(e)
      case Success(u) => SaveOutcome(users, u.(password := setPassword(password)))
  }

  /** A successful creation leaves a valid table valid. */
  lemma CreateKeepsStoreValid(
    users: seq<User>, normalizeEmail: EmailNormalizer, setPassword: PasswordHasher,
    email: string, username: string, name: string, password: Option<string>,
    extra: map<string, Value>)
    requires StoreValid(users)
    ensures var r := CreateUserOutcome(users, normalizeEmail, setPassword, email, username, name, password, extra);
      r.Success? ==> StoreValid(users + [r.value])
  {
    var r := CreateUserOutcome(users, normalizeEmail, setPassword, email, username, name, password, extra);
    if r.Success? {
      InsertKeepsStoreValid(users, r.value);
    }
  }

  /** The string form of a created user is the username it was given. */
  lemma CreatedUserStringIsUsername(
    users: seq<User>, normalizeEmail: EmailNormalizer, setPassword: PasswordHasher,
    email: string, username: string, name: string, password: Option<string>,
    extra: map<string, Value>)
    ensures var r := CreateUserOutcome(users, normalizeEmail, setPassword, email, username, name, password, extra);
      r.Success? ==> ToString(r.value) == username
  {
  }

  /** `name` is never checked: an empty name is accepted, and whether creation
      succeeds does not depend on the name (its 255-character bound is a column
      declaration that `create_user` does not enforce). */
  lemma NameNotChecked(
    users: seq<User>, normalizeEmail: EmailNormalizer, setPassword: PasswordHasher,
    email: string, username: string, name: string, name': string, password: Option<string>,
    extra: map<string, Value>)
    ensures CreateUserOutcome(users, normalizeEmail, setPassword, email, username, name, password, extra).Success?
        <==> CreateUserOutcome(users, normalizeEmail, setPassword, email, username, name', password, extra).Success?
    ensures var r := CreateUserOutcome(users, normalizeEmail, setPassword, email, username, name, password, extra);
      var r' := CreateUserOutcome(users, normalizeEmail, setPassword, email, username, name', password, extra);
      r.Failure? ==> r'.Failure? && r.error == r'.error
  {
  }

  /** A superuser created without explicit flags is staff and superuser; a flag
      the caller gave is stored as given. */
  lemma SuperuserFlags(
    users: seq<User>, normalizeEmail: EmailNormalizer, setPassword: PasswordHasher,
    email: string, username: string, name: string, password: Option<string>,
    extra: map<string, Value>)
    ensures var r := CreateUserOutcome(users, normalizeEmail, setPassword, email, username, name, password, SuperuserFields(extra));
      r.Success? ==>
        && r.value.fields[IS_STAFF] == (if IS_STAFF in extra then extra[IS_STAFF] else Flag(true))
        && r.value.fields[IS_SUPERUSER] == (if IS_SUPERUSER in extra then extra[IS_SUPERUSER] else Flag(true))
  {
  }

  /** `create_superuser` fails exactly when `create_user` on the same arguments
      fails, with the same error; on success the two records differ at most in
      the two flags and in the password column, which each call's own
      `set_password` writes. */
  lemma SuperuserLikeUser(
    users: seq<User>, normalizeEmail: EmailNormalizer, setPassword: PasswordHasher,
    email: string, username: string, name: string, password: Option<string>,
    extra: map<string, Value>)
    ensures var s := CreateUserOutcome(users, normalizeEmail, setPassword, email, username, name, password, SuperuserFields(extra));
      var r := CreateUserOutcome(users, normalizeEmail, setPassword, email, username, name, password, extra);
      && (s.Success? <==> r.Success?)
      && (s.Failure? ==> s.error == r.error)
      && (s.Success? ==>
            && s.value.(fields := map[], password := BLANK_PASSWORD)
               == r.value.(fields := map[], password := BLANK_PASSWORD)
            && s.value.fields.Keys == r.value.fields.Keys
            && forall k :: k in r.value.fields && k != IS_STAFF && k != IS_SUPERUSER ==>
                 s.value.fields[k] == r.value.fields[k])
  {
    var s := CreateUserOutcome(users, normalizeEmail, setPassword, email, username, name, password, SuperuserFields(extra));
    assert SuperuserFields(extra).Keys - EXTRA_FIELDS == extra.Keys - EXTRA_FIELDS;
    assert SuperuserFields(extra).Keys <= EXTRA_FIELDS <==> extra.Keys <= EXTRA_FIELDS;
  }

  /** The defaults do not make every superuser staff: a caller who passes
      `is_staff=False` gets a superuser that is not staff. */
  lemma SuperuserNeedNotBeStaff(
    users: seq<User>, normalizeEmail: EmailNormalizer, setPassword: PasswordHasher,
    email: string, username: string, name: string, password: Option<string>)
    requires email != "" && username != ""
    requires forall i :: 0 <= i < |users| ==> users[i].email != normalizeEmail(email)
    ensures var r := CreateUserOutcome(users, normalizeEmail, setPassword, email, username, name, password,
                                       SuperuserFields(map[IS_STAFF := Flag(false)]));
      r.Success? && r.value.fields[IS_SUPERUSER] == Flag(true) && r.value.fields[IS_STAFF] == Flag(false)
  {
  }

  /** The manager bound to one database: `users` is that database's user table. */
  class UserManager {
    const normalizeEmail: EmailNormalizer
    const setPassword: PasswordHasher
    var users: seq<User>

    ghost predicate Valid()
      reads this
    {
      StoreValid(users)
    }

    constructor (rows: seq<User>, normalizeEmail: EmailNormalizer, setPassword: PasswordHasher)
      requires StoreValid(rows)
      ensures Valid()
      ensures users == rows
      ensures this.normalizeEmail == normalizeEmail && this.setPassword == setPassword
    {
      users := rows;
      this.normalizeEmail := normalizeEmail;
      this.setPassword := setPassword;
    }

    /** `user.save(using=self._db)` for a record not yet stored. */
    method Save(user: User) returns (r: Result<User, Error>)
      requires Valid() && HasModelFields(user)
      modifies this
      ensures Valid()
      ensures r == SaveOutcome(old(users), user)
      ensures r.Success? ==> users == old(users) + [user]
      ensures r.Failure? ==> users == old(users)
    {
      if user.email in EmailsOf(users) {
        return Failure(IntegrityError("email"));
      }
      InsertKeepsStoreValid(users, user);
      users := users + [user];
      r := Success(user);
    }

    /** `create_user`: both guards run before anything is stored; on success
        exactly one row, the one returned, is appended. */
    method CreateUser(email: string, username: string, name: string, password: Option<string> := None,
                      extra: map<string, Value> := map[])
      returns (r: Result<User, Error>)
      requires Valid()
      requires extra.Keys !! PARAMETERS
      modifies this
      ensures Valid()
      ensures r == CreateUserOutcome(old(users), normalizeEmail, setPassword, email, username, name, password, extra)
      ensures r.Success? ==> users == old(users) + [r.value]
      ensures r.Failure? ==> users == old(users)
    {
      if email == "" {
        return Failure(ValueError(EMAIL_REQUIRED));
      }
      if username == "" {
        return Failure(ValueError(USERNAME_REQUIRED));
      }
      var normalized := normalizeEmail(email);
      var built := NewUser(normalized, username, name, extra);
      if built.Failure? {
        return Failure(built.error);
      }
      var user := built.value;
      user := user.(password := setPassword(password));
      r := Save(user);
    }

    /** `create_superuser`: `setdefault` of both flags on the keyword fields,
        then `create_user` on the augmented fields. */
    method CreateSuperuser(email: string, username: string, name: string, password: Option<string> := None,
                           extra: map<string, Value> := map[])
      returns (r: Result<User, Error>)
      requires Valid()
      requires extra.Keys !! PARAMETERS
      modifies this
      ensures Valid()
      ensures r == CreateUserOutcome(old(users), normalizeEmail, setPassword, email, username, name, password,
                                     SuperuserFields(extra))
      ensures r.Success? ==> users == old(users) + [r.value]
      ensures r.Failure? ==> users == old(users)
    {
      var fields := extra;
      if IS_STAFF !in fields {
        fields := fields[IS_STAFF := Flag(true)];
      }
      if IS_SUPERUSER !in fields {
        fields := fields[IS_SUPERUSER := Flag(true)];
      }
      assert fields == SuperuserFields(extra);
      r := CreateUser(email, username, name, password, fields);
    }
  }
}
