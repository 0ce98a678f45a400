# freework account provisioning, modelled in Dafny

freework is a Django web application. Its one piece of logic is account provisioning: the
`UserManager` of `freework/users/managers.py` creates regular users and superusers for the
custom `User` model of `freework/users/models.py`. This project models that manager and the
record it builds, and proves what the two promise.

- `wrappers.dfy` (module `Wrappers`): `Option` and `Result`. A Python exception becomes a
  `Failure` carrying an `Error`.
- `models.dfy` (module `Models`): the `User` record. It has `email`, `username`, `name`, the
  encoded password, and a map `fields` for the other model fields (the flags, `last_login`,
  `date_joined`, `id`). There is no `first_name` or `last_name`. The module also holds:
  - `NewUser`, the model constructor called with keyword arguments. Unset flags get the
    `AbstractUser` defaults. A keyword that names no field raises `TypeError`.
  - `EmailsOf`, the keys of the unique email index.
  - `SaveOutcome`, the insert, which the unique constraint can refuse.
- `managers.dfy` (module `Managers`):
  - `SetDefault` models `dict.setdefault`.
  - `SuperuserFields` builds the fields that `create_superuser` passes on.
  - `CreateUserOutcome` is the pure specification of `create_user`.
  - Class `UserManager` holds the user table as `users: seq<User>`. Its methods `CreateUser`,
    `CreateSuperuser` and `Save` change that table, and each is proved against
    `CreateUserOutcome` / `SaveOutcome`.
  - The class invariant `Valid()` says that no two rows share an email and that every row
    carries only declared fields.

`normalize_email` and `set_password` are framework code. The manager receives them as function
values (`normalizeEmail`, `setPassword`), and no property depends on what they compute.

`create_superuser` does not force a superuser to be staff: it keeps a caller's
`is_staff=False`. `SuperuserNeedNotBeStaff` proves it.

## Model

| member | source | states |
|---|---|---|
| `Models.NewUser` | freework/users/managers.py:14-16 | Construction fails with TypeError exactly when some keyword is not a model field, and the error lists exactly those keywords. On success, email, username and name are stored as given. Every extra field appears unchanged. Each flag not given takes its `AbstractUser` default. The key set is the given keys plus the default keys. |
| `Models.ToString` | freework/users/models.py:19-20 | A user's string form is its username (the function is `__str__` itself; what is proved about it is in `Managers.CreatedUserStringIsUsername`). |
| `Models.NoPersonalNameFields` | freework/users/models.py:11-12 | A record that carries only declared fields has no `first_name` and no `last_name`. |
| `Models.EmailsOf` | freework/users/models.py:15 | The unique-index keys are exactly the emails of the stored rows: every row's email is a key, and every key is some row's email. |
| `Models.UniqueIndexSize` | freework/users/models.py:15 | No two rows share an email if and only if the index has exactly as many keys as the table has rows. |
| `Models.SaveOutcome` | freework/users/managers.py:18 | Saving a new record succeeds exactly when no stored row has its email, and then the result is the record itself. Otherwise it fails with IntegrityError on `email`. |
| `Models.InsertKeepsStoreValid` | freework/users/models.py:15 | Appending a record whose save succeeds, and that carries only declared fields, keeps emails unique and every row well formed. |
| `Managers.SetDefault` | freework/users/managers.py:25-26 | `setdefault` adds exactly the one key. A value already present is kept. The default is used only when the key is absent. Every other entry is unchanged. |
| `Managers.SuperuserFields` | freework/users/managers.py:25-26 | The fields passed on are the caller's plus `is_staff` and `is_superuser`. Each flag is the caller's value if given, and true otherwise. Every caller entry is unchanged. |
| `Managers.CreateUserOutcome` | freework/users/managers.py:5-19 | An empty email fails with the email message, whatever the username, because email is checked first. A non-empty email with an empty username fails with the username message. Unknown keywords come next (TypeError), then a stored email (IntegrityError). Success holds if and only if all of these checks pass, for extra values of their fields' types. On success: the email is `normalize_email(email)`; username and name are as given; the password is `set_password(password)`; every extra field is unchanged; the defaults fill in the missing flags. |
| `Managers.CreateKeepsStoreValid` | freework/users/models.py:15 | A successful creation on a valid table leaves the table valid: emails stay unique and every row carries only declared fields. |
| `Managers.CreatedUserStringIsUsername` | freework/users/models.py:19-20 | The string form of a created user is the username it was created with. |
| `Managers.NameNotChecked` | freework/users/models.py:14 | `name` is never a reason to fail. Two calls that differ only in `name`, for instance an empty one and a long one, succeed or fail together and with the same error. |
| `Managers.SuperuserFlags` | freework/users/managers.py:25-26 | A superuser created without the flags is staff and superuser. A flag the caller gave is stored as given. |
| `Managers.SuperuserLikeUser` | freework/users/managers.py:21-30 | `create_superuser` fails exactly when `create_user` with the same arguments fails, and with the same error. On success the two records agree on everything except the two flags and the password column, which each call's `set_password` writes. |
| `Managers.SuperuserNeedNotBeStaff` | freework/users/managers.py:25-30 | With `is_staff=False` supplied and a fresh email, `create_superuser` stores a superuser that is not staff. |
| `Managers.UserManager.constructor` | freework/users/models.py:17 | The manager starts on a valid table with the given normaliser and hasher. |
| `Managers.UserManager.Save` | freework/users/managers.py:18 | The result is `SaveOutcome` on the old table. On success exactly that record is appended. On failure the table is unchanged. The invariant is kept. |
| `Managers.UserManager.CreateUser` | freework/users/managers.py:5-19 | The result is `CreateUserOutcome` on the old table. On success exactly one row, the one returned, is appended and all earlier rows are unchanged. On any failure, including both guard failures, the table is unchanged. The invariant is kept. |
| `Managers.UserManager.CreateSuperuser` | freework/users/managers.py:21-30 | The result and the new table are those of `CreateUser` on `SuperuserFields(extra)`: the flags are defaulted, then everything is delegated. |

## Left out

- Models.SaveOutcome, Managers.CreateUserOutcome: save's value conversion is not modelled. Each extra value is assumed to have its field's type: a flag a boolean, `id` an integer, `last_login` and `date_joined` a date or None. Django refuses other values at `save` and the model does not. A `None` flag breaks the NOT NULL constraint (IntegrityError). A value `BooleanField` cannot convert raises ValidationError.
- Managers.UserManager.CreateUser: `set_password` is modelled as one fixed function for the manager's lifetime, so it is deterministic. Django's `make_password` draws a fresh random salt on every call, and for None it stores "!" plus a random string. A record's password column is therefore "what `set_password` gives for this argument". Two calls are not claimed to write the same column, and `SuperuserLikeUser` does not compare it.
- `normalize_email` and `set_password` (Argon2, PBKDF2 or bcrypt, chosen by the `PASSWORD_HASHERS` setting) are Django library code. They are function values here. So the model does not claim that the domain part is case-folded, or that an omitted password gives an unusable credential.
- Unique `username`, and the column lengths `AbstractUser` and `EmailField` declare (150 for username, 254 for email), come from the framework and are not modelled. The only constraint of `save` modelled is the unique email that `models.py` declares.
- The 255-character bound on `name` is not enforced. `create_user` never runs field validation, and the default SQLite database does not enforce declared lengths. A backend that does would raise a data error from `save`, and that case is not modelled.
- The database primary key is not modelled. `save` assigns it on insert, and a caller-supplied `id` that already exists would make `save` update that row. The model always inserts.
- The `date_joined` default (the current time) and the `last_login` default (None) are not modelled. These fields appear only when the caller gives them. The three flag defaults are modelled.
- Non-string `email` or `username` arguments (None, for instance) are not modelled. For strings, Python's `not x` is the empty-string test modelled here.
- Django's exact constructor behaviour is not modelled. Keywords naming Python properties (`pk`) or many-to-many fields (`groups`, `user_permissions`) are treated like any other name that is not a field, which fails with TypeError. The model also does not reproduce the exception message text.
- `extra.Keys !! PARAMETERS` on `CreateUser` and `CreateSuperuser` is Python's own keyword binding: `**extra_fields` can never hold `email`, `username`, `name` or `password`.
- `using=self._db` database routing is not modelled: a manager works on one table. Transactions and concurrent duplicate inserts are not modelled either.
- Password strength validators are not modelled, because `create_user` never calls them.
- Settings modules, URL routing, admin configuration and the frontend build files contain no provisioning logic and are not part of this model.
