/**
 * `UserApi` and the `User`, `Credentials`, `RegistrationData` and `AuthenticationToken`
 * entities (src/api/user.ts): which account endpoints are authenticated, and whether the
 * argument travels in the body or in the query.
 */
module UserApi {
  import opened Common
  import Client
  import Text

  datatype User = User(
    id: Option<int>,
    email: string,
    name: string,
    surname: string,
    metadata: Option<Metadata>,
    createdAt: Option<string>,
    updatedAt: Option<string>)

  datatype Credentials = Credentials(email: string, password: string)

  datatype RegistrationData = RegistrationData(email: string, name: string, surname: string, password: string, metadata: Option<Metadata>)

  datatype AuthenticationToken = AuthenticationToken(token: string)

  /** The fields of a profile update (`Partial<User>`); `None` is a field left out. */
  datatype ProfileUpdates = ProfileUpdates(name: Option<string>, surname: Option<string>, metadata: Option<Metadata>)

  /** The bodies the endpoints send. */
  datatype UserBody =
    | Registration(data: RegistrationData)                    // `register`
    | Login(credentials: Credentials)                         // `login`
    | Profile(updates: ProfileUpdates)                        // `updateProfile`
    | PasswordChange(currentPassword: string, newPassword: string)  // `{ currentPassword, newPassword }`
    | VerificationCode(code: string)                          // `{ code }`
    | PasswordReset(code: string, password: string)           // `{ code, password }`

  const Root: string := "/api/users"

  /** `UserApi.getUrl(slug)`: `/api/users/<slug>`, or the bare root for a falsy slug. */
  function GetUrl(slug: Option<string>): (r: string)
    ensures Text.StartsWith(r, Root)
    ensures TextTruthy(slug) ==> r == Root + "/" + slug.value
    ensures !TextTruthy(slug) ==> r == Root
  {
    Root + (if TextTruthy(slug) then "/" + slug.value else "")
  }

  /** `register(data)`: public, the registration data as body. */
  function Register(data: RegistrationData): (r: Client.Request<UserBody>)
    ensures r.verb == Client.POST && r.path == Root + "/register" && !r.secure
    ensures r.body == Some(Registration(data)) && r.query.None?
  {
    Client.Post(GetUrl(Some("register")), false, Some(Registration(data)), None)
  }

  /** `login(credentials)`: public, the credentials as body. */
  function LogIn(c: Credentials): (r: Client.Request<UserBody>)
    ensures r.verb == Client.POST && r.path == Root + "/login" && !r.secure
    ensures r.body == Some(Login(c)) && r.query.None?
  {
    Client.Post(GetUrl(Some("login")), false, Some(Login(c)), None)
  }

  /** `logout()`: authenticated, nothing sent. */
  function LogOut(): (r: Client.Request<UserBody>)
    ensures r.verb == Client.POST && r.path == Root + "/logout" && r.secure
    ensures r.body.None? && r.query.None?
  {
    Client.Post(GetUrl(Some("logout")), true, None, None)
  }

  /** `getProfile()`: authenticated read of the own profile. */
  function GetProfile(): (r: Client.Request<UserBody>)
    ensures r.verb == Client.GET && r.path == Root + "/profile" && r.secure
    ensures r.body.None? && r.query.None?
  {
    Client.Get(GetUrl(Some("profile")), true, None)
  }

  /** `updateProfile(updates)`: authenticated PUT of the changed fields. */
  function UpdateProfile(updates: ProfileUpdates): (r: Client.Request<UserBody>)
    ensures r.verb == Client.PUT && r.path == Root + "/profile" && r.secure
    ensures r.body == Some(Profile(updates)) && r.query.None?
  {
    Client.Put(GetUrl(Some("profile")), true, Some(Profile(updates)))
  }

  /** `changePassword(currentPassword, newPassword)`: authenticated, both passwords in the body. */
  function ChangePassword(currentPassword: string, newPassword: string): (r: Client.Request<UserBody>)
    ensures r.verb == Client.POST && r.path == Root + "/change-password" && r.secure
    ensures r.body == Some(PasswordChange(currentPassword, newPassword)) && r.query.None?
  {
    Client.Post(GetUrl(Some("change-password")), true, Some(PasswordChange(currentPassword, newPassword)), None)
  }

  /** `forgotPassword(email)`: public, `email` in the query and no body. */
  function ForgotPassword(email: string): (r: Client.Request<UserBody>)
    ensures r.verb == Client.POST && r.path == Root + "/forgot-password" && !r.secure
    ensures r.body.None? && r.query == Some(map["email" := Client.Str(email)])
  {
    Client.Post(GetUrl(Some("forgot-password")), false, None, Some(map["email" := Client.Str(email)]))
  }

  /** `sendVerification(email)`: public, `email` in the query and no body. */
  function SendVerification(email: string): (r: Client.Request<UserBody>)
    ensures r.verb == Client.POST && r.path == Root + "/send-verification" && !r.secure
    ensures r.body.None? && r.query == Some(map["email" := Client.Str(email)])
  {
    Client.Post(GetUrl(Some("send-verification")), false, None, Some(map["email" := Client.Str(email)]))
  }

  /** `verifyAccount(code)`: public, `{ code }` as body. */
  function VerifyAccount(code: string): (r: Client.Request<UserBody>)
    ensures r.verb == Client.POST && r.path == Root + "/verify-account" && !r.secure
    ensures r.body == Some(VerificationCode(code)) && r.query.None?
  {
    Client.Post(GetUrl(Some("verify-account")), false, Some(VerificationCode(code)), None)
  }

  /** `resetPassword(code, password)`: public, `{ code, password }` as body. */
  function ResetPassword(code: string, password: string): (r: Client.Request<UserBody>)
    ensures r.verb == Client.POST && r.path == Root + "/reset-password" && !r.secure
    ensures r.body == Some(PasswordReset(code, password)) && r.query.None?
  {
    Client.Post(GetUrl(Some("reset-password")), false, Some(PasswordReset(code, password)), None)
  }

  /** The account endpoints, as a closed set of calls. */
  datatype Endpoint =
    | RegisterCall(data: RegistrationData)
    | LoginCall(credentials: Credentials)
    | LogoutCall
    | GetProfileCall
    | UpdateProfileCall(updates: ProfileUpdates)
    | ChangePasswordCall(currentPassword: string, newPassword: string)
    | ForgotPasswordCall(email: string)
    | SendVerificationCall(email: string)
    | VerifyAccountCall(code: string)
    | ResetPasswordCall(code: string, password: string)

  /** The request each endpoint sends. */
  function RequestOf(e: Endpoint): Client.Request<UserBody>
  {
    match e
    case RegisterCall(d) => Register(d)
    case LoginCall(c) => LogIn(c)
    case LogoutCall => LogOut()
    case GetProfileCall => GetProfile()
    case UpdateProfileCall(u) => UpdateProfile(u)
    case ChangePasswordCall(c, n) => ChangePassword(c, n)
    case ForgotPasswordCall(m) => ForgotPassword(m)
    case SendVerificationCall(m) => SendVerification(m)
    case VerifyAccountCall(c) => VerifyAccount(c)
    case ResetPasswordCall(c, p) => ResetPassword(c, p)
  }

  /** The calls made before a session exists: every account-creation and recovery step. */
  predicate IsPublic(e: Endpoint)
  {
    e.RegisterCall? || e.LoginCall? || e.ForgotPasswordCall? || e.SendVerificationCall?
    || e.VerifyAccountCall? || e.ResetPasswordCall?
  }

  /**
   * An endpoint is sent with `secure` exactly when it is not public, so a public call never
   * carries an `Authorization` header, whatever token the client holds, and a secure one
   * carries it exactly when a token is set.
   */
  lemma SecureExactlyWhenNotPublic(e: Endpoint, token: Option<string>)
    ensures RequestOf(e).secure <==> !IsPublic(e)
    ensures IsPublic(e) ==> "Authorization" !in Client.Headers(RequestOf(e).verb, RequestOf(e).secure, token)
    ensures !IsPublic(e) ==>
      ("Authorization" in Client.Headers(RequestOf(e).verb, RequestOf(e).secure, token) <==> TextTruthy(token))
  {
  }

  /** Only `forgotPassword` and `sendVerification` send a query; they are also the only POSTs without a body. */
  lemma QueryOnlyForEmailEndpoints(e: Endpoint)
    ensures RequestOf(e).query.Some? <==> e.ForgotPasswordCall? || e.SendVerificationCall?
    ensures RequestOf(e).query.Some? ==> RequestOf(e).body.None? && "email" in RequestOf(e).query.value
  {
  }

  /** The email of a recovery call reaches the URL exactly when it is not empty. */
  lemma EmailInUrl(email: string)
    ensures var s := Client.SearchParams(ForgotPassword(email).query.value);
      ("email" in s <==> email != "") && ("email" in s ==> s["email"] == email)
  {
  }

  /** `new User(email, name, surname, id, metadata, ...)`: id only when truthy, `metadata || {}`. */
  function NewUser(email: string, name: string, surname: string, id: Option<int>, metadata: Option<Metadata>,
                   createdAt: Option<string>, updatedAt: Option<string>): (u: User)
    ensures u.id.Some? <==> IdTruthy(id)
    ensures u.id.Some? ==> u.id == id
    ensures u.metadata == Some(OrDefault(metadata, map[]))
    ensures u.email == email && u.name == name && u.surname == surname
    ensures u.createdAt == createdAt && u.updatedAt == updatedAt
  {
    User(KeepTruthyId(id), email, name, surname, Some(OrDefault(metadata, map[])), createdAt, updatedAt)
  }

  /** The shape every constructed user has. */
  predicate Normalized(u: User)
  {
    u.id != Some(0) && u.metadata.Some?
  }

  /** Rebuilding a user from its own fields changes nothing exactly when it is already normalised. */
  lemma NewUserFixedPoint(u: User)
    ensures NewUser(u.email, u.name, u.surname, u.id, u.metadata, u.createdAt, u.updatedAt) == u <==> Normalized(u)
  {
  }
}
