/** The record shapes of shared/schema.ts (users, sessions, social
    connections), the insert and patch shapes the store accepts, and the
    request validators (zod schemas) with the issues they report. */
module Schema {
  import opened Common

  /** A point in time, in milliseconds since the epoch. */
  type Millis = int

  const Minute: int := 60 * 1000
  const Hour: int := 60 * Minute
  const Day: int := 24 * Hour

  // ---------------------------------------------------------------------------
  // Records
  // ---------------------------------------------------------------------------

  /** A row of the `users` table. `password` is a bcrypt digest, null for
      accounts created by social login. */
  datatype User = User(
    id: nat,
    email: string,
    password: Option<string>,
    firstName: Option<string>,
    lastName: Option<string>,
    username: string,
    isVerified: bool,
    verificationToken: Option<string>,
    verificationExpires: Option<Millis>,
    resetPasswordToken: Option<string>,
    resetPasswordExpires: Option<Millis>,
    twoFactorEnabled: bool,
    twoFactorSecret: Option<string>,
    profilePicture: Option<string>,
    createdAt: Millis,
    updatedAt: Millis)

  /** InsertUser: what a caller hands to createUser. `None` is an absent key;
      the two flags and the timestamps have defaults. */
  datatype NewUser = NewUser(
    email: string,
    username: string,
    password: Option<string>,
    firstName: Option<string>,
    lastName: Option<string>,
    isVerified: Option<bool>,
    verificationToken: Option<string>,
    verificationExpires: Option<Millis>,
    resetPasswordToken: Option<string>,
    resetPasswordExpires: Option<Millis>,
    twoFactorEnabled: Option<bool>,
    twoFactorSecret: Option<string>,
    profilePicture: Option<string>,
    createdAt: Option<Millis>,
    updatedAt: Option<Millis>)

  /** An insert carrying only the two required columns. */
  function Insert(email: string, username: string): NewUser {
    NewUser(email, username, None, None, None, None, None, None, None, None, None, None, None, None, None)
  }

  /** The record createUser stores: the insert spread over the defaults
      `isVerified = false`, `twoFactorEnabled = false`, timestamps = now. */
  function BuildUser(data: NewUser, id: nat, now: Millis): (u: User)
    ensures u.id == id && u.email == data.email && u.username == data.username
    ensures u.isVerified <==> data.isVerified == Some(true)
    ensures u.twoFactorEnabled <==> data.twoFactorEnabled == Some(true)
    ensures data.createdAt.None? ==> u.createdAt == now
    ensures data.updatedAt.None? ==> u.updatedAt == now
  {
    User(id, data.email, data.password, data.firstName, data.lastName, data.username,
         Default(data.isVerified, false), data.verificationToken, data.verificationExpires,
         data.resetPasswordToken, data.resetPasswordExpires,
         Default(data.twoFactorEnabled, false), data.twoFactorSecret, data.profilePicture,
         Default(data.createdAt, now), Default(data.updatedAt, now))
  }

  /** `value ?? fallback` for an optional key. */
  function Default<T>(value: Option<T>, fallback: T): T {
    if value.Some? then value.value else fallback
  }

  /** Partial<InsertUser>: `None` leaves the column alone, `Some(v)` writes v. */
  datatype UserPatch = UserPatch(
    email: Option<string>,
    password: Option<Option<string>>,
    firstName: Option<Option<string>>,
    lastName: Option<Option<string>>,
    username: Option<string>,
    isVerified: Option<bool>,
    verificationToken: Option<Option<string>>,
    verificationExpires: Option<Option<Millis>>,
    resetPasswordToken: Option<Option<string>>,
    resetPasswordExpires: Option<Option<Millis>>,
    twoFactorEnabled: Option<bool>,
    twoFactorSecret: Option<Option<string>>,
    profilePicture: Option<Option<string>>)

  const NoChange: UserPatch :=
    UserPatch(None, None, None, None, None, None, None, None, None, None, None, None, None)

  /** `{...user, ...data, updatedAt: now}`: every key present in the patch
      overrides the column, `updatedAt` becomes `now`, the rest is kept. */
  function ApplyPatch(u: User, p: UserPatch, now: Millis): User {
    User(u.id,
         Default(p.email, u.email),
         Default(p.password, u.password),
         Default(p.firstName, u.firstName),
         Default(p.lastName, u.lastName),
         Default(p.username, u.username),
         Default(p.isVerified, u.isVerified),
         Default(p.verificationToken, u.verificationToken),
         Default(p.verificationExpires, u.verificationExpires),
         Default(p.resetPasswordToken, u.resetPasswordToken),
         Default(p.resetPasswordExpires, u.resetPasswordExpires),
         Default(p.twoFactorEnabled, u.twoFactorEnabled),
         Default(p.twoFactorSecret, u.twoFactorSecret),
         Default(p.profilePicture, u.profilePicture),
         u.createdAt,
         now)
  }

  /** An empty patch only refreshes `updatedAt`. */
  lemma NoChangeOnlyTouchesUpdatedAt(u: User, now: Millis)
    ensures ApplyPatch(u, NoChange, now) == u.(updatedAt := now)
  {
  }

  /** Identity providers (SocialProvider in shared/types.ts). */
  datatype Provider = Google | Github | Microsoft | Linkedin | Facebook | Apple

  /** The parts of the provider's profile the server reads; the rest of the
      `data` blob is stored unread. */
  datatype ProviderProfile = ProviderProfile(
    firstName: Option<string>,
    lastName: Option<string>,
    profilePicture: Option<string>)

  /** A row of the `social_connections` table. */
  datatype SocialConnection = SocialConnection(
    id: nat,
    userId: int,
    provider: Provider,
    providerId: string,
    data: ProviderProfile,
    createdAt: Millis,
    updatedAt: Millis)

  datatype NewConnection = NewConnection(
    userId: int,
    provider: Provider,
    providerId: string,
    data: ProviderProfile)

  /** Where a request came from, as attached to sessions. */
  datatype ClientInfo = ClientInfo(
    ip: Option<string>,
    userAgent: Option<string>,
    location: Option<string>,
    timezone: Option<string>)

  /** A row of the `sessions` table. */
  datatype Session = Session(
    id: nat,
    userId: int,
    token: string,
    ipAddress: Option<string>,
    userAgent: Option<string>,
    location: Option<string>,
    timezone: Option<string>,
    expiresAt: Millis,
    createdAt: Millis)

  datatype NewSession = NewSession(
    userId: int,
    token: string,
    client: ClientInfo,
    expiresAt: Millis)

  /** The record createSession stores. */
  function BuildSession(data: NewSession, id: nat, now: Millis): (s: Session)
    ensures s.id == id && s.userId == data.userId && s.token == data.token
    ensures s.expiresAt == data.expiresAt && s.createdAt == now
  {
    Session(id, data.userId, data.token, data.client.ip, data.client.userAgent,
            data.client.location, data.client.timezone, data.expiresAt, now)
  }

  /** A session counts only while the current time is before its expiry. */
  predicate Live(s: Session, now: Millis) {
    s.expiresAt > now
  }

  // ---------------------------------------------------------------------------
  // Request validators
  // ---------------------------------------------------------------------------

  /** One zod issue: the path of the offending key and its message. */
  datatype Issue = Issue(path: seq<string>, message: string)

  const InvalidEmail := "Invalid email address"
  const PasswordTooShort := "Password must be at least 8 characters"
  const PasswordsDiffer := "Passwords do not match"
  const PasswordRequired := "Password is required"
  const CurrentPasswordRequired := "Current password is required"
  const NewPasswordTooShort := "New password must be at least 8 characters"
  const CodeTooShort := "String must contain at least 6 character(s)"
  const CodeTooLong := "String must contain at most 6 character(s)"

  const MinPasswordLength := 8
  const CodeLength := 6

  /** `when ? [issue] : []`. */
  function IssueIf(when: bool, key: string, message: string): (r: seq<Issue>)
    ensures Issue([key], message) in r <==> when
    ensures |r| <= 1
  {
    if when then [Issue([key], message)] else []
  }

  datatype RegisterBody = RegisterBody(
    email: string, username: string, password: string, confirmPassword: string,
    firstName: Option<string>, lastName: Option<string>)

  /** registerUserSchema: field checks in declaration order, then the
      password-confirmation refinement (zod runs it on a dirty object too).
      `isEmail` is zod's e-mail pattern. */
  function RegisterIssues(b: RegisterBody, isEmail: string -> bool): (r: seq<Issue>)
    ensures r == [] <==> isEmail(b.email) && JsLength(b.password) >= MinPasswordLength
                         && b.password == b.confirmPassword
    ensures Issue(["password"], PasswordTooShort) in r <==> JsLength(b.password) < MinPasswordLength
    ensures Issue(["confirmPassword"], PasswordsDiffer) in r <==> b.password != b.confirmPassword
  {
    IssueIf(!isEmail(b.email), "email", InvalidEmail)
    + IssueIf(JsLength(b.password) < MinPasswordLength, "password", PasswordTooShort)
    + IssueIf(b.password != b.confirmPassword, "confirmPassword", PasswordsDiffer)
  }

  datatype LoginBody = LoginBody(email: string, password: string)

  /** loginSchema. */
  function LoginIssues(b: LoginBody, isEmail: string -> bool): (r: seq<Issue>)
    ensures r == [] <==> isEmail(b.email) && b.password != ""
    ensures Issue(["password"], PasswordRequired) in r <==> b.password == ""
  {
    IssueIf(!isEmail(b.email), "email", InvalidEmail)
    + IssueIf(JsLength(b.password) < 1, "password", PasswordRequired)
  }

  datatype ResetBody = ResetBody(token: string, password: string, confirmPassword: string)

  /** passwordResetSchema: the token is any string. */
  function ResetIssues(b: ResetBody): (r: seq<Issue>)
    ensures r == [] <==> JsLength(b.password) >= MinPasswordLength && b.password == b.confirmPassword
    ensures Issue(["confirmPassword"], PasswordsDiffer) in r <==> b.password != b.confirmPassword
  {
    IssueIf(JsLength(b.password) < MinPasswordLength, "password", PasswordTooShort)
    + IssueIf(b.password != b.confirmPassword, "confirmPassword", PasswordsDiffer)
  }

  datatype EmailChangeBody = EmailChangeBody(newEmail: string, password: string)

  /** emailChangeSchema. */
  function EmailChangeIssues(b: EmailChangeBody, isEmail: string -> bool): (r: seq<Issue>)
    ensures r == [] <==> isEmail(b.newEmail) && b.password != ""
  {
    IssueIf(!isEmail(b.newEmail), "newEmail", InvalidEmail)
    + IssueIf(JsLength(b.password) < 1, "password", PasswordRequired)
  }

  datatype PasswordChangeBody = PasswordChangeBody(
    currentPassword: string, newPassword: string, confirmPassword: string)

  /** passwordChangeSchema. */
  function PasswordChangeIssues(b: PasswordChangeBody): (r: seq<Issue>)
    ensures r == [] <==> b.currentPassword != "" && JsLength(b.newPassword) >= MinPasswordLength
                         && b.newPassword == b.confirmPassword
    ensures Issue(["confirmPassword"], PasswordsDiffer) in r <==> b.newPassword != b.confirmPassword
  {
    IssueIf(JsLength(b.currentPassword) < 1, "currentPassword", CurrentPasswordRequired)
    + IssueIf(JsLength(b.newPassword) < MinPasswordLength, "newPassword", NewPasswordTooShort)
    + IssueIf(b.newPassword != b.confirmPassword, "confirmPassword", PasswordsDiffer)
  }

  /** twoFactorVerifySchema: min(6) and max(6), so exactly six code units;
      the characters themselves are not checked. */
  function CodeIssues(code: string): (r: seq<Issue>)
    ensures r == [] <==> JsLength(code) == CodeLength
    ensures |r| <= 1
  {
    IssueIf(JsLength(code) < CodeLength, "code", CodeTooShort)
    + IssueIf(JsLength(code) > CodeLength, "code", CodeTooLong)
  }

  /** Any six characters pass, digits or not. */
  lemma CodeDigitsNotChecked()
    ensures CodeIssues("abcdef") == []
    ensures CodeIssues("12345") != []
  {
    assert JsLength("abcdef") == 6 by {
      assert forall i :: 0 <= i < 6 ==> "abcdef"[i] as int <= 0xFFFF;
    }
    assert JsLength("12345") == 5 by {
      assert forall i :: 0 <= i < 5 ==> "12345"[i] as int <= 0xFFFF;
    }
  }

  // ---------------------------------------------------------------------------
  // Profile update: a whitelist of four optional keys
  // ---------------------------------------------------------------------------

  /** A decoded JSON value, as far as the schema distinguishes them. */
  datatype Json = JString(s: string) | JNull | JNumber | JBool | JArray | JObject

  function TypeName(j: Json): string {
    match j
    case JString(_) => "string"
    case JNull => "null"
    case JNumber => "number"
    case JBool => "boolean"
    case JArray => "array"
    case JObject => "object"
  }

  /** profileUpdateSchema's output: `None` is an absent key, and the three
      nullable columns may be set to null. */
  datatype ProfileUpdate = ProfileUpdate(
    firstName: Option<Option<string>>,
    lastName: Option<Option<string>>,
    username: Option<string>,
    profilePicture: Option<Option<string>>)

  const ProfileKeys: set<string> := {"firstName", "lastName", "username", "profilePicture"}

  /** One optional key: absent, a string, or (when `nullable`) null. */
  function ParseField(body: map<string, Json>, key: string, nullable: bool): Result<Option<Option<string>>, seq<Issue>> {
    if key !in body then Ok(None)
    else match body[key]
      case JString(s) => Ok(Some(Some(s)))
      case JNull => if nullable then Ok(Some(None)) else Err([Issue([key], "Expected string, received null")])
      case other => Err([Issue([key], "Expected string, received " + TypeName(other))])
  }

  function IssuesOf<T>(r: Result<T, seq<Issue>>): seq<Issue> {
    if r.Err? then r.error else []
  }

  /** profileUpdateSchema.parse: zod strips every key outside the four it
      picks; each picked key is optional. */
  function ParseProfileUpdate(body: map<string, Json>): (r: Result<ProfileUpdate, seq<Issue>>)
    ensures r.Ok? ==> (r.value.username.Some? <==> "username" in body)
    ensures r.Ok? && r.value.username.Some? ==> body["username"] == JString(r.value.username.value)
  {
    var first := ParseField(body, "firstName", true);
    var last := ParseField(body, "lastName", true);
    var name := ParseField(body, "username", false);
    var picture := ParseField(body, "profilePicture", true);
    var issues := IssuesOf(first) + IssuesOf(last) + IssuesOf(name) + IssuesOf(picture);
    if issues != [] then Err(issues)
    else
      var username := if name.value.Some? then Some(name.value.value.value) else None;
      Ok(ProfileUpdate(first.value, last.value, username, picture.value))
  }

  /** Keys outside the whitelist have no effect on the parsed update. */
  lemma ParseIgnoresUnknownKeys(body: map<string, Json>, key: string, v: Json)
    requires key !in ProfileKeys
    ensures ParseProfileUpdate(body[key := v]) == ParseProfileUpdate(body)
  {
    var b2 := body[key := v];
    assert ParseField(b2, "firstName", true) == ParseField(body, "firstName", true);
    assert ParseField(b2, "lastName", true) == ParseField(body, "lastName", true);
    assert ParseField(b2, "username", false) == ParseField(body, "username", false);
    assert ParseField(b2, "profilePicture", true) == ParseField(body, "profilePicture", true);
  }

  /** The patch `updateUser(id, req.body)` applies for a parsed profile
      update: it can only name the four whitelisted columns. */
  function ProfilePatch(p: ProfileUpdate): (r: UserPatch)
    ensures r.email.None? && r.password.None? && r.isVerified.None?
    ensures r.verificationToken.None? && r.verificationExpires.None?
    ensures r.resetPasswordToken.None? && r.resetPasswordExpires.None?
    ensures r.twoFactorEnabled.None? && r.twoFactorSecret.None?
  {
    NoChange.(firstName := p.firstName, lastName := p.lastName,
              username := p.username, profilePicture := p.profilePicture)
  }
}
