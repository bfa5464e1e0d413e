/**
 * The sign-up and login serializers of the accounts app: the password
 * confirmation check, the creation of the user from validated sign-up
 * data, and the credential check of the login form.
 */
module AccountsSerializers {
  import opened Wrappers
  import opened AccountsModels

  /** Validated sign-up data; `None` is an optional field left out. */
  datatype SignupData = SignupData(
    email: string,
    password: string,
    passwordConfirm: string,
    firstName: Option<string>,
    lastName: Option<string>,
    role: Option<string>,
    phone: Option<string>,
    cpf: Option<string>)

  datatype SignupError = PasswordMismatch | Refused(reason: AccountError)

  /** `UserCreateSerializer.validate`: fails exactly when the two passwords
      differ, and otherwise hands the data on untouched. */
  function ValidateSignup(attrs: SignupData): (r: Result<SignupData, SignupError>)
    ensures r.Ok? <==> attrs.password == attrs.passwordConfirm
    ensures r.Ok? ==> r.value == attrs
    ensures r.Err? ==> r.error == PasswordMismatch
  {
    if attrs.password != attrs.passwordConfirm then Err(PasswordMismatch) else Ok(attrs)
  }

  /** The row `create_user` stores for validated sign-up data under key
      `id`: the normalised email, the hash of the password, '' for every
      optional field left out, and the model defaults for the flags. */
  function SignupUser(id: UserId, data: SignupData, normalize: string -> string, now: Time): User {
    User(id, normalize(data.email), HashOf(data.password),
         data.firstName.GetOr(""), data.lastName.GetOr(""),
         false, false, false, now,
         data.role.GetOr(""), data.phone.GetOr(""), data.cpf.GetOr(""))
  }

  /** `UserCreateSerializer.create`: `password_confirm` is dropped and each
      missing optional field is passed to `create_user` as ''. */
  method CreateFromSignup(users: UserStore, validated: SignupData,
                          normalize: string -> string, now: Time)
    returns (r: Result<User, AccountError>)
    requires users.Valid()
    modifies users
    ensures users.Valid()
    ensures validated.email == "" ==> r == Err(EmailRequired)
    ensures validated.email != "" ==>
      var u := SignupUser(old(users.nextId), validated, normalize, now);
      if Taken(old(users.users), u.email, u.cpf)
      then r == Err(IntegrityError)
      else r == Ok(u) && users.users == old(users.users) + [u]
    ensures r.Err? ==> users.users == old(users.users)
  {
    // The confirmation is not a model field: only the remaining keys reach
    // `create_user`, each optional one defaulting to ''.
    var extra := ExtraFields(
      Some(validated.firstName.GetOr("")), Some(validated.lastName.GetOr("")),
      Some(validated.role.GetOr("")), Some(validated.phone.GetOr("")),
      Some(validated.cpf.GetOr("")), None, None, None);
    r := users.CreateUser(validated.email, Some(validated.password), extra, normalize, now);
  }

  /** Validation followed by creation: a mismatched confirmation creates
      no user. */
  method Signup(users: UserStore, data: SignupData, normalize: string -> string, now: Time)
    returns (r: Result<User, SignupError>)
    requires users.Valid()
    modifies users
    ensures users.Valid()
    ensures data.password != data.passwordConfirm ==>
              r == Err(PasswordMismatch) && users.users == old(users.users)
    ensures data.password == data.passwordConfirm && data.email == "" ==>
              r == Err(Refused(EmailRequired))
    ensures data.password == data.passwordConfirm && data.email != "" ==>
      var u := SignupUser(old(users.nextId), data, normalize, now);
      if Taken(old(users.users), u.email, u.cpf)
      then r == Err(Refused(IntegrityError))
      else r == Ok(u) && users.users == old(users.users) + [u]
    ensures r.Ok? ==>
              && data.password == data.passwordConfirm
              && !r.value.isActive && !r.value.isStaff
              && users.users == old(users.users) + [r.value]
    ensures r.Err? ==> users.users == old(users.users)
  {
    var checked := ValidateSignup(data);
    if checked.Err? {
      return Err(checked.error);
    }
    var created := CreateFromSignup(users, checked.value, normalize, now);
    match created
    case Ok(u) => r := Ok(u);
    case Err(e) => r := Err(Refused(e));
  }

  /** The login form's attributes; `user` is filled in by validation. */
  datatype LoginAttrs = LoginAttrs(email: Option<string>, password: Option<string>, user: Option<User>)

  datatype LoginError =
    | CredentialsRequired   // email or password missing or empty
    | AuthenticationFailed  // `authenticate` found no user

  /** Python truthiness of an optional string. */
  predicate Present(s: Option<string>) {
    s.Some? && s.value != ""
  }

  /** `AuthTokenSerializer.validate`. `authenticate` is the framework's
      credential check; when a credential is missing the result does not
      depend on it, since it is not consulted. */
  method ValidateLogin(attrs: LoginAttrs, authenticate: (string, string) -> Option<User>)
    returns (r: Result<LoginAttrs, LoginError>)
    ensures !(Present(attrs.email) && Present(attrs.password)) ==> r == Err(CredentialsRequired)
    ensures Present(attrs.email) && Present(attrs.password) ==>
      match authenticate(attrs.email.value, attrs.password.value)
      case None => r == Err(AuthenticationFailed)
      case Some(u) => r == Ok(attrs.(user := Some(u)))
    ensures r.Ok? ==>
              && r.value.user.Some? && r.value.email == attrs.email
              && r.value.password == attrs.password
  {
    var validated := attrs;
    if Present(attrs.email) && Present(attrs.password) {
      var user := authenticate(attrs.email.value, attrs.password.value);
      if user.None? {
        return Err(AuthenticationFailed);
      }
      validated := validated.(user := user);
    } else {
      return Err(CredentialsRequired);
    }
    r := Ok(validated);
  }
}
