# Check-in approval and accounts: a Dafny model

This project models the core of a Django REST back end in which drivers
(`motorista`) submit check-ins with attached files and logistics staff
(`logistica`) approve or reject them. It also models the custom user model
those check-ins point at. The model covers:

- **Check-ins and attachments** (`CheckinsModels`). A check-in row
  (`Checkin`) and an attachment row (`Arquivo`) are values. The two tables
  and their id counters live in the class `CheckinStore`. Its methods are
  the writes the app performs:
  - create a check-in and add an attachment;
  - `aprovar` and `rejeitar`, which assign the evaluation fields one by one
    and then `save()`, where `auto_now` refreshes `data_atualizacao`;
  - the deletions the foreign keys define (`CASCADE` and `SET_NULL`).
- **Status** (`CheckinsModels.Status`). A three-valued datatype whose
  stored code is one of `STATUS_CHOICES`. `ParseStatus` reads a code back.
- **Permissions** (`CheckinsPermissions`). `IsMotorista` and `IsLogistica`
  are predicates over the request's user. `None` stands for an
  unauthenticated request, and the model gives it no permission. In the
  framework such a request carries an anonymous user, which has no `role`,
  so these two checks would raise on it rather than return false. That case
  never arises: every view lists `IsAuthenticated` first, which refuses
  the request before the role check runs.
- **Serializers** (`CheckinsSerializers`):
  - the computed output fields: driver name, evaluator name and attachment
    count;
  - the two input serializers. Each accepts a fixed set of fields and drops
    every other key. A field is `Omitted`, `Given(value)` or `Rejected` by
    its field validation.
- **Views** (`CheckinsViews`). Each view first applies its permission
  classes in order: authentication, then the role. Then:
  - the list, detail and pending views are functions over the store;
  - the create, approve/reject and upload views are methods that change it.
  
  Every HTTP error response is a `ViewError` variant.
- **Accounts** (`AccountsModels`, `AccountsSerializers`):
  - the user row and its defaults;
  - `get_full_name`, `get_short_name` and `is_logistica`;
  - the manager's `create_user` and `create_superuser`, as methods of the
    user table `UserStore`. The table keeps email and cpf unique;
  - the sign-up serializer (password confirmation, then creation);
  - the login serializer.
- **Python text** (`PyText`). `str.strip()` over Python's `isspace`
  character set, which `get_full_name` uses.

The module `Seqs` holds a generic filter (`Where`) that the queries and
cascades use. The module `Wrappers` holds `Option` and `Result`.

Foreign calls are parameters of the operations that use them:
- the clock (`now`);
- `normalize_email` (`normalize`);
- `authenticate`;
- file contents (`UploadedFile`).

Password hashing is a tag: `HashOf(raw)` or `Unusable`.

Three points where the code does something other than what a reader might
expect are modelled as the code does them:
- **A zero-file create keeps the check-in.** `CheckinCreateView.post` saves
  the check-in before it looks at the files. `@transaction.atomic` rolls
  back only on an exception, so the "at least one file" answer leaves the
  new check-in stored. `CheckinsViews.CreateView` states this.
- **Approval is check-then-write.** The view reads the status and then
  `aprovar`/`rejeitar` overwrite it. `aprovar`/`rejeitar` themselves accept
  a check-in in any status. There is no conditional update.
- **New accounts are inactive by default.** The user model defaults
  `is_active` to false, while the initial migration says true and has no
  cpf column. The model follows the model class.

## Model

| member | source | states |
|---|---|---|
| PyText.Strip | accounts/models.py:74 | the stripped string has no whitespace at either end, and it is empty exactly when the input is all whitespace |
| PyText.StripTrimsBothEnds | accounts/models.py:74 | `strip()` is `rstrip()` after `lstrip()` |
| PyText.StripIdempotent | accounts/models.py:74 | stripping twice is stripping once |
| PyText.TrimStartDropsSpaces | accounts/models.py:74 | what the left strip removes is whitespace only |
| PyText.TrimEndDropsSpaces | accounts/models.py:74 | what the right strip removes is whitespace only |
| AccountsModels.User.FullName | accounts/models.py:69-74 | the full name is empty exactly when both names are blank or whitespace, and it has no surrounding whitespace |
| AccountsModels.ShortNameStartsFullName | accounts/models.py:76-80 | the short name is the first name; a non-empty first name without surrounding whitespace is a prefix of the full name |
| AccountsModels.User.ShortName | accounts/models.py:76-80 | the short name is the stored first name, unchanged |
| AccountsModels.User.IsLogistica | accounts/models.py:82-83 | holds exactly when the role is the logistics choice, so never for a driver or a blank role |
| AccountsModels.NewUser | accounts/models.py:43-55 | a new row takes the given email, id and join time and has no password yet; active, staff and superuser default to false and cpf to blank |
| AccountsModels.SetPassword | accounts/models.py:19 | a missing password gives an unusable password, and a given one gives the hash of that password |
| AccountsModels.BlankCpfTaken | accounts/models.py:55 | once one stored user has a blank cpf, a new user with a blank cpf collides with it under the unique constraint |
| AccountsModels.UserStore.Insert | accounts/models.py:43 | the insert succeeds exactly when neither the email nor the cpf is taken, and the uniqueness invariant is kept |
| AccountsModels.UserStore.CreateUser | accounts/models.py:11-21 | an empty email is refused and nothing is stored; otherwise the user built from the normalised email, the extra fields and the password is appended, unless the email or cpf is taken |
| AccountsModels.UserStore.CreateSuperuser | accounts/models.py:23-36 | the staff, superuser and active flags default to true; an explicit false for staff or superuser is refused, and nothing is stored; otherwise the result is exactly what `create_user` gives for the defaulted fields: the full row, with the password set, appended, or the integrity error when the email or cpf is taken |
| AccountsSerializers.ValidateSignup | accounts/serializers.py:31-37 | validation fails exactly when the two passwords differ, and otherwise returns the data unchanged |
| AccountsSerializers.CreateFromSignup | accounts/serializers.py:39-56 | the confirmation is dropped, missing optional fields become '', and the stored user is exactly the one `create_user` builds from them |
| AccountsSerializers.Signup | accounts/serializers.py:31-56 | a mismatched confirmation stores no user; matching passwords lead to creation: an empty email is refused, a taken email or cpf gives the integrity error, and otherwise the exact sign-up row, with the hash of the password, is appended |
| AccountsSerializers.ValidateLogin | accounts/serializers.py:69-91 | a missing or empty email or password gives the credentials-required error; otherwise a failed authentication gives the authentication error and a successful one returns the attributes with the user set |
| CheckinsPermissions.IsMotorista | checkins/permissions.py:9-10 | access is granted exactly to a present user whose role is the driver choice, who is then not a logistics user |
| CheckinsPermissions.IsLogistica | checkins/permissions.py:18-19 | access is granted exactly to a present user whose role is the logistics choice, and for a present user it agrees with `is_logistica` |
| CheckinsPermissions.RolesExclusive | checkins/permissions.py:9-19 | no user passes both role permissions |
| CheckinsPermissions.BlankRoleHasNoPermission | checkins/permissions.py:9-19 | a blank role passes neither permission, and neither does an unauthenticated request, which `IsAuthenticated` refuses first |
| CheckinsPermissions.IsLogisticaAgrees | accounts/models.py:82-83 | the `IsLogistica` permission and the model's `is_logistica` agree on every user |
| CheckinsModels.Status.Code | checkins/models.py:10-21 | every stored status is one of the three choices and fits the column's length of 10 |
| CheckinsModels.ParseStatus | checkins/models.py:10-14 | a stored code is accepted exactly when it is one of the choices, and it reads back to that status |
| CheckinsModels.StatusRoundTrip | checkins/models.py:10-14 | reading back the code of a status gives that status |
| CheckinsModels.SortNewest | checkins/models.py:44 | the ordered rows are newest `data_criacao` first and are a permutation of the input rows |
| CheckinsModels.Evaluated | checkins/models.py:49-67 | an evaluated row has the decision, the evaluator, the comment and the evaluation time set; driver, comment, coordinates and creation time are unchanged |
| CheckinsModels.ClearEvaluator | checkins/models.py:31-37 | rows evaluated by the deleted user lose their evaluator, and every other row stays as it was |
| CheckinsModels.CheckinStore.Create | checkins/models.py:16-39 | a new check-in is pending, with a fresh id, no evaluator, a blank evaluation comment and no evaluation time; only the check-in table grows |
| CheckinsModels.CheckinStore.AddArquivo | checkins/models.py:70-81 | a new attachment of the given check-in, named after its file, is appended; the check-ins are unchanged |
| CheckinsModels.CheckinStore.Save | checkins/models.py:24 | saving a row writes it back with `data_atualizacao` refreshed and keeps the table invariant |
| CheckinsModels.CheckinStore.Aprovar | checkins/models.py:49-57 | the row with that key becomes the approved evaluated row, with a '' comment by default, whatever its status was; no other row and no attachment changes |
| CheckinsModels.CheckinStore.Rejeitar | checkins/models.py:59-67 | the row with that key becomes the rejected evaluated row, with a '' comment by default, whatever its status was; no other row and no attachment changes |
| CheckinsModels.CheckinStore.DeleteCheckin | checkins/models.py:74-78 | the check-in and all of its attachments are gone; every other row stays |
| CheckinsModels.CheckinStore.UserDeleted | checkins/models.py:16-37 | the user's own check-ins are gone with their attachments, and the check-ins they evaluated keep existing with no evaluator |
| CheckinsSerializers.DisplayName | checkins/serializers.py:31-32 | the full name when it is non-empty, otherwise the email |
| CheckinsSerializers.MotoristaNome | checkins/serializers.py:31-32 | the driver's display name; non-empty when the driver has an email |
| CheckinsSerializers.AvaliadorNome | checkins/serializers.py:34-37 | none exactly when the check-in has no evaluator; otherwise the evaluator's display name |
| CheckinsSerializers.QtdArquivos | checkins/serializers.py:39-40 | the count is at most the table size, and it is zero exactly when no attachment points at the check-in |
| CheckinsSerializers.QtdArquivosAppend | checkins/serializers.py:39-40 | the count over two tables joined is the sum of the two counts |
| CheckinsSerializers.QtdArquivosOwnRows | checkins/serializers.py:39-40 | rows that all belong to the check-in are all counted |
| CheckinsSerializers.ValidateCreate | checkins/serializers.py:69-75 | the input is refused exactly when one of its three fields is refused; a given value is kept and an omitted one takes the model default |
| CheckinsSerializers.CreateIgnoresOtherKeys | checkins/serializers.py:75 | keys other than comment, latitude and longitude have no effect on creation |
| CheckinsSerializers.SaveCreate | checkins/serializers.py:77-80 | the new check-in's driver is the requesting user and its status is pending, whatever the input held |
| CheckinsSerializers.ValidateEvaluation | checkins/serializers.py:83-89 | the input is refused exactly when the comment is refused; an omitted comment is '' |
| CheckinsSerializers.EvaluationIgnoresOtherKeys | checkins/serializers.py:89 | only the evaluation comment is read from the input |
| CheckinsViews.Lookup | checkins/views.py:108 | a row is found exactly when its key is in the table |
| CheckinsViews.UpdatePendingKeepsEvaluations | checkins/views.py:110-119 | overwriting a pending row keeps every evaluated row |
| CheckinsViews.ScopedQuery | checkins/views.py:28-36 | a logistics user sees every check-in, anyone else exactly their own, each row as often as it is stored (once), newest first |
| CheckinsViews.ListView | checkins/views.py:21-36 | an anonymous request is refused; otherwise exactly the scoped query's rows, each once, newest first |
| CheckinsViews.DetailView | checkins/views.py:39-54 | a found row has the key and is visible to the requester; a row of another driver is not found for a non-logistics user |
| CheckinsViews.PendingQuery | checkins/views.py:162-163 | exactly the pending check-ins, each as often as it is stored (once), newest first |
| CheckinsViews.PendingView | checkins/views.py:155-163 | only logistics users get the list, which is exactly the pending query's rows, each once, newest first |
| CheckinsViews.NewArquivos | checkins/views.py:87-92 | one attachment per file, in order, named after its file, under consecutive keys |
| CheckinsViews.SaveArquivos | checkins/views.py:87-92 | the attachment table grows by exactly the new attachments; the check-ins are unchanged |
| CheckinsViews.CreateView | checkins/views.py:64-98 | anonymous, non-driver and invalid requests change nothing; otherwise a pending check-in owned by the requester is stored, and either the missing-files error is returned with the check-in kept, or one attachment per file is added |
| CheckinsViews.EvaluateView | checkins/views.py:101-152 | approve and reject: refused for non-logistics users, not found for an unknown key, "already evaluated" for a non-pending row with nothing changed; otherwise the row becomes the evaluated row with the requester as evaluator; an evaluated row is never overwritten |
| CheckinsViews.UploadView | checkins/views.py:166-201 | only the owner's check-in is found; a non-pending check-in or an empty file list is refused with nothing added; otherwise exactly one attachment per file is added and returned |

## Left out

- HTTP routing, parsers, status codes and response bodies. Each response
  is a `Result` value with a `ViewError` variant.
- The token views of the accounts app. They only wrap the framework's
  token table.
- Migrations. They are schema declarations. The model follows the model
  classes.
- Password hashing, `normalize_email` and `authenticate`. These are
  framework calls whose code is not part of this model. They are a tag or
  a function parameter.
- Token key generation is not part of this model.
- File storage. The `upload_to` path and the storage back end are left
  out. A file is its name and its bytes.
- Length limits of `CharField`s other than `status`, for example
  `nome_arquivo`'s 255 and cpf's 11. Field-level validation of the input
  serializers is abstracted as `Field`: omitted, given or refused. Role
  choice validation is left out for the same reason.
- AccountsSerializers.Signup: the sign-up serializer is a model serializer,
  so `email` and a given `cpf` also get the framework's unique-value
  validators. Those are field-level validation too. They run before the
  password check, so in the code a taken email is a field error, and it
  wins over a password mismatch. `SignupData` is data that already passed
  those validators. The model's `IntegrityError` stands for what remains:
  an omitted cpf colliding with a stored blank one (`BlankCpfTaken`), or two
  sign-ups racing.
- Decimal latitude and longitude. They are opaque values with no
  arithmetic and no range check.
- Concurrency and transactions. Two approvals racing between the status
  check and the write are not modelled. Each view runs alone.
- The user table and the check-in table are separate stores. The foreign
  keys from check-ins to users are user ids. `UserDeleted` gives the
  check-in side of deleting a user.
- CheckinsModels.SortNewest: ties in `data_criacao` keep their input order
  here. The database promises no order for them, so the model fixes one.
- Unicode beyond `str.isspace`. Strings are sequences of code points with
  no normalisation. This affects `strip` and `normalize_email`.
- `__str__` of the models, verbose names and the `arquivos` nested output
  of the detail serializer. They are display only.
