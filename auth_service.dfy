/** The account service of server/services/auth.ts, as methods over one
    shared MemStorage. Password hashing, token signing and the mail sender
    are parameters: `digest` is what hashPassword returned, `matches` is
    bcrypt.compare on a present hash, `issue` is generateToken, `mailOk`
    says whether the awaited mail send resolved, and the random tokens are
    passed in, unused by anybody. */
module AuthService {
  import opened Common
  import opened Schema
  import opened Storage
  import opened Accounts

  // ---------------------------------------------------------------------------
  // Tokens, lifetimes, errors, views
  // ---------------------------------------------------------------------------

  /** The JWT payload: `userId` and the optional `require2FA` flag (an
      absent flag reads as false). */
  datatype Claims = Claims(userId: int, require2FA: bool)

  /** generateToken(claims, ttl) as of `now`. */
  type Issuer = (Claims, int, Millis) -> string

  const FullTtl: int := 30 * Day
  const TempTtl: int := 5 * Minute
  const SessionLifetime: int := 30 * Day
  const VerificationLifetime: int := 24 * Hour
  const ResetLifetime: int := 1 * Hour

  /** The errors the service throws. */
  datatype AuthError =
    | EmailInUse
    | UsernameInUse
    | InvalidCredentials
    | EmailNotVerified
    | InvalidVerificationToken
    | VerificationTokenExpired
    | InvalidResetToken
    | UserNotFound
    | InvalidPassword
    | CurrentPasswordIncorrect
    | MissingHash        // bcrypt.compare rejecting a null hash
    | OrphanConnection
    | MailFailed         // the awaited mail send rejected after the store was written

  function Message(e: AuthError): string {
    match e
    case EmailInUse => "Email already in use"
    case UsernameInUse => "Username already in use"
    case InvalidCredentials => "Invalid credentials"
    case EmailNotVerified => "Please verify your email before logging in"
    case InvalidVerificationToken => "Invalid or expired verification token"
    case VerificationTokenExpired => "Verification token has expired"
    case InvalidResetToken => "Invalid or expired reset token"
    case UserNotFound => "User not found"
    case InvalidPassword => "Invalid password"
    case CurrentPasswordIncorrect => "Current password is incorrect"
    case MissingHash => "data and hash arguments required"
    case OrphanConnection => "User associated with this social account not found"
    case MailFailed => "Failed to send email"
  }

  const VerifiedMessage := "Email verified successfully"
  const ResetRequestedMessage := "If your email is registered, you will receive a password reset link"
  const PasswordResetMessage := "Password reset successfully"
  const EmailChangedMessage := "Email updated. Please verify your new email address"
  const PasswordChangedMessage := "Password changed successfully"

  /** `{ success: true, message }`. */
  datatype Ack = Ack(message: string)

  /** What registerUser returns: no password, no token. */
  datatype AccountView = AccountView(
    id: nat, email: string, username: string,
    firstName: Option<string>, lastName: Option<string>, isVerified: bool)

  function AccountViewOf(u: User): AccountView {
    AccountView(u.id, u.email, u.username, u.firstName, u.lastName, u.isVerified)
  }

  /** The `user` object of a login answer. */
  datatype LoginView = LoginView(
    id: nat, email: string, username: string,
    firstName: Option<string>, lastName: Option<string>, isVerified: bool,
    twoFactorEnabled: bool, profilePicture: Option<string>)

  function LoginViewOf(u: User): LoginView {
    LoginView(u.id, u.email, u.username, u.firstName, u.lastName, u.isVerified,
              u.twoFactorEnabled, u.profilePicture)
  }

  datatype LoginResult =
    | TwoFactorRequired(tempToken: string)
    | Authenticated(token: string, user: LoginView)

  /** The session a full login opens. */
  function SessionFor(userId: int, token: string, client: ClientInfo, now: Millis): NewSession {
    NewSession(userId, token, client, now + SessionLifetime)
  }

  // ---------------------------------------------------------------------------
  // Password comparison and the login decision
  // ---------------------------------------------------------------------------

  datatype Comparison = Match | Mismatch | NoHash

  /** comparePassword(password, user.password!): bcrypt rejects a null hash
      instead of answering false. */
  function ComparePassword(matches: (string, string) -> bool, password: string, hash: Option<string>): (r: Comparison)
    ensures r == NoHash <==> hash.None?
    ensures r == Match <==> hash.Some? && matches(password, hash.value)
  {
    if hash.None? then NoHash else if matches(password, hash.value) then Match else Mismatch
  }

  /** loginUser's checks, in the source's order, with a password-less
      account answered like a wrong password. */
  function CheckLogin(users: seq<User>, creds: LoginBody, matches: (string, string) -> bool): (r: Result<User, AuthError>)
    ensures r.Ok? <==> (&& UserByEmail(users, creds.email).Some?
                        && ComparePassword(matches, creds.password, UserByEmail(users, creds.email).value.password) == Match
                        && UserByEmail(users, creds.email).value.isVerified)
    ensures r.Ok? ==> r.value == UserByEmail(users, creds.email).value
    ensures r.Err? ==> r.error == InvalidCredentials || r.error == EmailNotVerified
    ensures r == Err(EmailNotVerified) ==>
              (&& UserByEmail(users, creds.email).Some?
               && ComparePassword(matches, creds.password, UserByEmail(users, creds.email).value.password) == Match)
  {
    match UserByEmail(users, creds.email)
    case None => Err(InvalidCredentials)
    case Some(u) =>
      if ComparePassword(matches, creds.password, u.password) != Match then Err(InvalidCredentials)
      else if !u.isVerified then Err(EmailNotVerified)
      else Ok(u)
  }

  /** loginUser's checks as the source runs them: a stored null password
      makes bcrypt throw its own error. */
  function CheckLoginAsWritten(users: seq<User>, creds: LoginBody, matches: (string, string) -> bool): (r: Result<User, AuthError>)
    ensures r == Err(MissingHash) <==> UserByEmail(users, creds.email).Some? && UserByEmail(users, creds.email).value.password.None?
    ensures r != Err(MissingHash) ==> r == CheckLogin(users, creds, matches)
  {
    match UserByEmail(users, creds.email)
    case None => Err(InvalidCredentials)
    case Some(u) =>
      match ComparePassword(matches, creds.password, u.password)
      case NoHash => Err(MissingHash)
      case Mismatch => Err(InvalidCredentials)
      case Match => if !u.isVerified then Err(EmailNotVerified) else Ok(u)
  }

  /** An unknown email and a wrong password fail identically. */
  lemma LoginFailsAlike(users: seq<User>, unknown: LoginBody, wrong: LoginBody, matches: (string, string) -> bool)
    requires UserByEmail(users, unknown.email).None?
    requires UserByEmail(users, wrong.email).Some?
    requires ComparePassword(matches, wrong.password, UserByEmail(users, wrong.email).value.password) != Match
    ensures CheckLogin(users, unknown, matches) == CheckLogin(users, wrong, matches) == Err(InvalidCredentials)
  {
  }

  /** As written, a social-login account answers a password attempt with a
      message that differs from "Invalid credentials", so the response tells
      which emails belong to password-less accounts. */
  lemma PasswordlessLoginAsWrittenDiffers(matches: (string, string) -> bool)
    ensures var social := User(1, "ann@example.com", None, None, None, "ann", true, None, None,
                               None, None, false, None, None, 0, 0);
            var creds := LoginBody("ann@example.com", "guess-guess");
            && CheckLoginAsWritten([social], creds, matches) == Err(MissingHash)
            && CheckLogin([social], creds, matches) == Err(InvalidCredentials)
            && Message(MissingHash) != Message(InvalidCredentials)
  {
    var social := User(1, "ann@example.com", None, None, None, "ann", true, None, None,
                       None, None, false, None, None, 0, 0);
    var creds := LoginBody("ann@example.com", "guess-guess");
    assert EmailMatches(creds.email)(social);
    assert UserByEmail([social], creds.email) == Some(social);
  }

  // ---------------------------------------------------------------------------
  // Unique usernames for social sign-ups
  // ---------------------------------------------------------------------------

  /** The k-th name generateUniqueUsername tries: `base`, `base1`, `base2`, … */
  function Candidate(base: string, k: nat): string {
    if k == 0 then base else base + Decimal(k)
  }

  /** No two candidates are equal, even ignoring case. */
  lemma CandidatesDiffer(base: string, j: nat, k: nat)
    requires j != k
    ensures !SameName(Candidate(base, j), Candidate(base, k))
  {
    if j > 0 {
      LowerAppendDigits(base, Decimal(j));
    }
    if k > 0 {
      LowerAppendDigits(base, Decimal(k));
    }
    if j > 0 && k > 0 && SameName(Candidate(base, j), Candidate(base, k)) {
      var lj, lk := Lower(base) + Decimal(j), Lower(base) + Decimal(k);
      assert lj[|base|..] == Decimal(j) && lk[|base|..] == Decimal(k);
      DecimalInjective(j, k);
    }
  }

  /** Every user in `owners` holds (ignoring case) one of the first k
      candidates. */
  ghost predicate OwnersOfCandidates(users: seq<User>, base: string, owners: set<nat>, k: nat) {
    forall o :: o in owners ==> o < |users| && exists j :: 0 <= j < k && SameName(users[o].username, Candidate(base, j))
  }

  /** The holder of candidate k is not among the holders of earlier ones, so
      adding it counts one more user, still within the table. */
  lemma NewOwner(users: seq<User>, base: string, owners: set<nat>, k: nat, o: nat)
    requires OwnersOfCandidates(users, base, owners, k) && |owners| == k
    requires o < |users| && SameName(users[o].username, Candidate(base, k))
    ensures OwnersOfCandidates(users, base, owners + {o}, k + 1)
    ensures |owners + {o}| == k + 1 <= |users|
  {
    forall p | p in owners ensures p != o {
      var j :| 0 <= j < k && SameName(users[p].username, Candidate(base, j));
      CandidatesDiffer(base, j, k);
    }
    BoundedSetSize(owners + {o}, |users|);
  }

  /** The first k candidates are all taken. */
  predicate CandidatesTaken(users: seq<User>, base: string, k: nat) {
    forall j :: 0 <= j < k ==> UserByUsername(users, Candidate(base, j)).Some?
  }

  lemma TakenOneMore(users: seq<User>, base: string, k: nat)
    requires CandidatesTaken(users, base, k) && UserByUsername(users, Candidate(base, k)).Some?
    ensures CandidatesTaken(users, base, k + 1)
  {
  }

  /** Skipping a taken candidate k: its holder is a new owner, so one more
      user is accounted for and the count stays within the table. */
  lemma SkipCandidate(users: seq<User>, base: string, owners: set<nat>, k: nat) returns (o: nat)
    requires OwnersOfCandidates(users, base, owners, k) && CandidatesTaken(users, base, k)
    requires |owners| == k
    requires UserByUsername(users, Candidate(base, k)).Some?
    ensures OwnersOfCandidates(users, base, owners + {o}, k + 1) && CandidatesTaken(users, base, k + 1)
    ensures |owners + {o}| == k + 1 <= |users|
  {
    o :| 0 <= o < |users| && users[o] == UserByUsername(users, Candidate(base, k)).value;
    TakenOneMore(users, base, k);
    NewOwner(users, base, owners, k, o);
  }

  /** generateUniqueUsername: tries the candidates in order and returns the
      first one no user holds (ignoring case); `suffix` is its position. Each
      taken candidate is held by a different user, so at most |users| are
      skipped. */
  method GenerateUniqueUsername(users: seq<User>, base: string) returns (username: string, suffix: nat)
    ensures username == Candidate(base, suffix)
    ensures UserByUsername(users, username).None?
    ensures forall j :: 0 <= j < suffix ==> UserByUsername(users, Candidate(base, j)).Some?
    ensures suffix <= |users|
  {
    username := base;
    var counter: nat := 1;
    var isUnique := false;
    ghost var owners: set<nat> := {};
    while !isUnique
      invariant counter >= 1 && username == Candidate(base, counter - 1)
      invariant |owners| == counter - 1 <= |users|
      invariant OwnersOfCandidates(users, base, owners, counter - 1)
      invariant CandidatesTaken(users, base, counter - 1)
      invariant isUnique ==> UserByUsername(users, username).None?
      decreases |users| + 1 - counter, if isUnique then 0 else 1
    {
      var existing := UserByUsername(users, username);
      if existing.None? {
        isUnique := true;
      } else {
        ghost var o := SkipCandidate(users, base, owners, counter - 1);
        owners := owners + {o};
        username := base + Decimal(counter);
        counter := counter + 1;
      }
    }
    suffix := counter - 1;
  }

  /** The part of an email before the first '@' (`email.split('@')[0]`). */
  function LocalPart(email: string): (r: string)
    ensures '@' !in r
    ensures email == r || (|r| < |email| && email[..|r| + 1] == r + ['@'])
  {
    match FirstIndex(email, c => c == '@')
    case None => email
    case Some(i) => email[..i]
  }

  /** `providerData.x || null`: an empty string is stored as null. */
  function OrNull(s: Option<string>): (r: Option<string>)
    ensures r.Some? ==> r == s && r.value != ""
    ensures s.Some? && s.value != "" ==> r == s
  {
    if s.Some? && s.value != "" then s else None
  }

  // ---------------------------------------------------------------------------
  // The service operations
  // ---------------------------------------------------------------------------

  /** The insert registerUser hands to createUser. */
  function RegistrationRecord(data: RegisterBody, digest: string, token: string, now: Millis): NewUser {
    Insert(data.email, data.username).(
      password := Some(digest), firstName := data.firstName, lastName := data.lastName,
      isVerified := Some(false), verificationToken := Some(token),
      verificationExpires := Some(now + VerificationLifetime))
  }

  /** registerUser: email checked before username, both ignoring case; on
      success exactly one unverified user with a 24-hour verification token
      is added, and a failed mail send still leaves it stored. */
  method RegisterUser(store: MemStorage, data: RegisterBody, digest: string, token: string, now: Millis, mailOk: bool)
    returns (r: Result<AccountView, AuthError>)
    requires store.Valid() && ServiceInvariant(store.State())
    requires VerificationTokenUnused(store.users, token)
    modifies store
    ensures store.Valid() && ServiceInvariant(store.State())
    ensures UserByEmail(old(store.users), data.email).Some? ==>
              r == Err(EmailInUse) && store.State() == old(store.State())
    ensures UserByEmail(old(store.users), data.email).None? && UserByUsername(old(store.users), data.username).Some? ==>
              r == Err(UsernameInUse) && store.State() == old(store.State())
    ensures UserByEmail(old(store.users), data.email).None? && UserByUsername(old(store.users), data.username).None? ==>
              var u := BuildUser(RegistrationRecord(data, digest, token, now), old(store.nextUserId), now);
              && store.users == old(store.users) + [u]
              && u.email == data.email && u.username == data.username && u.password == Some(digest)
              && !u.isVerified && !u.twoFactorEnabled
              && u.verificationToken == Some(token) && u.verificationExpires == Some(now + VerificationLifetime)
              && store.State() == old(store.State()).(users := store.users, nextUserId := old(store.nextUserId) + 1)
              && r == (if mailOk then Ok(AccountViewOf(u)) else Err(MailFailed))
  {
    if UserByEmail(store.users, data.email).Some? {
      return Err(EmailInUse);
    }
    if UserByUsername(store.users, data.username).Some? {
      return Err(UsernameInUse);
    }
    var record := RegistrationRecord(data, digest, token, now);
    FreshKeysFit(store.users, BuildUser(record, store.nextUserId, now));
    AppendKeepsConsistent(store.users, BuildUser(record, store.nextUserId, now));
    var user := store.CreateUser(record, now);
    if !mailOk {
      return Err(MailFailed);
    }
    r := Ok(AccountViewOf(user));
  }

  /** loginUser: the checks of CheckLogin; then a 2FA user gets a five-minute
      temp token and no session, anybody else a 30-day token and exactly one
      new session. A failed login notification is swallowed. */
  method LoginUser(store: MemStorage, creds: LoginBody, client: ClientInfo, matches: (string, string) -> bool,
                   issue: Issuer, now: Millis)
    returns (r: Result<LoginResult, AuthError>)
    requires store.Valid() && ServiceInvariant(store.State())
    modifies store
    ensures store.Valid() && ServiceInvariant(store.State())
    ensures store.users == old(store.users) && store.connections == old(store.connections)
    ensures CheckLogin(old(store.users), creds, matches).Err? ==>
              r == Err(CheckLogin(old(store.users), creds, matches).error) && store.State() == old(store.State())
    ensures CheckLogin(old(store.users), creds, matches).Ok? && CheckLogin(old(store.users), creds, matches).value.twoFactorEnabled ==>
              var u := CheckLogin(old(store.users), creds, matches).value;
              r == Ok(TwoFactorRequired(issue(Claims(u.id, true), TempTtl, now))) && store.State() == old(store.State())
    ensures CheckLogin(old(store.users), creds, matches).Ok? && !CheckLogin(old(store.users), creds, matches).value.twoFactorEnabled ==>
              var u := CheckLogin(old(store.users), creds, matches).value;
              var t := issue(Claims(u.id, false), FullTtl, now);
              && r == Ok(Authenticated(t, LoginViewOf(u)))
              && store.sessions == old(store.sessions) + [BuildSession(SessionFor(u.id, t, client, now), old(store.nextSessionId), now)]
              && store.State() == old(store.State()).(sessions := store.sessions, nextSessionId := old(store.nextSessionId) + 1)
  {
    var checked := CheckLogin(store.users, creds, matches);
    if checked.Err? {
      return Err(checked.error);
    }
    var user := checked.value;
    if user.twoFactorEnabled {
      var tempToken := issue(Claims(user.id, true), TempTtl, now);
      return Ok(TwoFactorRequired(tempToken));
    }
    var token := issue(Claims(user.id, false), FullTtl, now);
    var session := store.CreateSession(SessionFor(user.id, token, client, now), now);
    r := Ok(Authenticated(token, LoginViewOf(user)));
  }

  const VerifiedPatch: UserPatch :=
    NoChange.(isVerified := Some(true), verificationToken := Some(None), verificationExpires := Some(None))

  /** `verificationExpires && verificationExpires < now`. */
  predicate VerificationExpired(u: User, now: Millis) {
    u.verificationExpires.Some? && u.verificationExpires.value < now
  }

  /** verifyEmail: an unknown or expired token fails and changes nothing;
      otherwise the holder becomes verified and the token and its expiry are
      cleared, so nobody holds the token afterwards. */
  method VerifyEmail(store: MemStorage, token: string, now: Millis, mailOk: bool) returns (r: Result<Ack, AuthError>)
    requires store.Valid() && ServiceInvariant(store.State())
    modifies store
    ensures store.Valid() && ServiceInvariant(store.State())
    ensures store.State() == old(store.State()).(users := store.users)
    ensures UserByVerificationToken(old(store.users), token).None? ==>
              r == Err(InvalidVerificationToken) && store.users == old(store.users)
    ensures UserByVerificationToken(old(store.users), token).Some?
            && VerificationExpired(UserByVerificationToken(old(store.users), token).value, now) ==>
              r == Err(VerificationTokenExpired) && store.users == old(store.users)
    ensures UserByVerificationToken(old(store.users), token).Some?
            && !VerificationExpired(UserByVerificationToken(old(store.users), token).value, now) ==>
              var u := UserByVerificationToken(old(store.users), token).value;
              && UserIndex(old(store.users), u.id).Some?
              && store.users == old(store.users)[UserIndex(old(store.users), u.id).value :=
                   u.(isVerified := true, verificationToken := None, verificationExpires := None, updatedAt := now)]
              && VerificationTokenUnused(store.users, token)
              && r == (if mailOk then Ok(Ack(VerifiedMessage)) else Err(MailFailed))
  {
    var found := UserByVerificationToken(store.users, token);
    if found.None? {
      return Err(InvalidVerificationToken);
    }
    var user := found.value;
    if user.verificationExpires.Some? && user.verificationExpires.value < now {
      return Err(VerificationTokenExpired);
    }
    IdFindsUser(store.users, user);
    var k := UserIndex(store.users, user.id).value;
    var v := ApplyPatch(user, VerifiedPatch, now);
    UpdateKeepsConsistent(store.users, k, v);
    ClearedVerificationTokenIsGone(store.users, k, v, token);
    var updated := store.UpdateUser(user.id, VerifiedPatch, now);
    if !mailOk {
      return Err(MailFailed);
    }
    r := Ok(Ack(VerifiedMessage));
  }

  /** requestPasswordReset: the same answer whether or not the email is
      registered; a registered user gets a fresh reset token valid for one
      hour. A failed mail send throws, and only for registered emails. */
  method RequestPasswordReset(store: MemStorage, email: string, resetToken: string, now: Millis, mailOk: bool)
    returns (r: Result<Ack, AuthError>)
    requires store.Valid() && ServiceInvariant(store.State())
    requires ResetTokenUnused(store.users, resetToken)
    modifies store
    ensures store.Valid() && ServiceInvariant(store.State())
    ensures store.State() == old(store.State()).(users := store.users)
    ensures UserByEmail(old(store.users), email).None? ==>
              r == Ok(Ack(ResetRequestedMessage)) && store.users == old(store.users)
    ensures UserByEmail(old(store.users), email).Some? ==>
              var u := UserByEmail(old(store.users), email).value;
              && UserIndex(old(store.users), u.id).Some?
              && store.users == old(store.users)[UserIndex(old(store.users), u.id).value :=
                   u.(resetPasswordToken := Some(resetToken), resetPasswordExpires := Some(now + ResetLifetime), updatedAt := now)]
              && r == (if mailOk then Ok(Ack(ResetRequestedMessage)) else Err(MailFailed))
  {
    var found := UserByEmail(store.users, email);
    if found.None? {
      return Ok(Ack(ResetRequestedMessage));
    }
    var user := found.value;
    IdFindsUser(store.users, user);
    var k := UserIndex(store.users, user.id).value;
    var patch := NoChange.(resetPasswordToken := Some(Some(resetToken)),
                           resetPasswordExpires := Some(Some(now + ResetLifetime)));
    UpdateKeepsConsistent(store.users, k, ApplyPatch(user, patch, now));
    var updated := store.UpdateUser(user.id, patch, now);
    if !mailOk {
      return Err(MailFailed);
    }
    r := Ok(Ack(ResetRequestedMessage));
  }

  /** resetPassword: only a token the expiry-filtered lookup finds is
      accepted; the password is replaced and the token and its expiry are
      cleared, so the token cannot be used again. */
  method ResetPassword(store: MemStorage, body: ResetBody, digest: string, now: Millis)
    returns (r: Result<Ack, AuthError>)
    requires store.Valid() && ServiceInvariant(store.State())
    modifies store
    ensures store.Valid() && ServiceInvariant(store.State())
    ensures store.State() == old(store.State()).(users := store.users)
    ensures UserByResetToken(old(store.users), body.token, now).None? ==>
              r == Err(InvalidResetToken) && store.users == old(store.users)
    ensures UserByResetToken(old(store.users), body.token, now).Some? ==>
              var u := UserByResetToken(old(store.users), body.token, now).value;
              && UserIndex(old(store.users), u.id).Some?
              && store.users == old(store.users)[UserIndex(old(store.users), u.id).value :=
                   u.(password := Some(digest), resetPasswordToken := None, resetPasswordExpires := None, updatedAt := now)]
              && ResetTokenUnused(store.users, body.token)
              && r == Ok(Ack(PasswordResetMessage))
  {
    var found := UserByResetToken(store.users, body.token, now);
    if found.None? {
      return Err(InvalidResetToken);
    }
    var user := found.value;
    IdFindsUser(store.users, user);
    var k := UserIndex(store.users, user.id).value;
    var patch := NoChange.(password := Some(Some(digest)), resetPasswordToken := Some(None),
                           resetPasswordExpires := Some(None));
    var v := ApplyPatch(user, patch, now);
    UpdateKeepsConsistent(store.users, k, v);
    ClearedResetTokenIsGone(store.users, k, v, body.token);
    var updated := store.UpdateUser(user.id, patch, now);
    r := Ok(Ack(PasswordResetMessage));
  }

  /** changeEmail: the user must exist and the password must match; an
      email any user holds, ignoring case and including the caller's own, is
      refused; on success the user is unverified again with a fresh token. */
  method ChangeEmail(store: MemStorage, userId: int, body: EmailChangeBody, matches: (string, string) -> bool,
                     token: string, now: Millis, mailOk: bool)
    returns (r: Result<Ack, AuthError>)
    requires store.Valid() && ServiceInvariant(store.State())
    requires VerificationTokenUnused(store.users, token)
    modifies store
    ensures store.Valid() && ServiceInvariant(store.State())
    ensures store.State() == old(store.State()).(users := store.users)
    ensures UserById(old(store.users), userId).None? ==> r == Err(UserNotFound) && store.users == old(store.users)
    ensures UserById(old(store.users), userId).Some? ==>
              var u := UserById(old(store.users), userId).value;
              var check := ComparePassword(matches, body.password, u.password);
              && (check == NoHash ==> r == Err(MissingHash) && store.users == old(store.users))
              && (check == Mismatch ==> r == Err(InvalidPassword) && store.users == old(store.users))
              && (check == Match && UserByEmail(old(store.users), body.newEmail).Some? ==>
                    r == Err(EmailInUse) && store.users == old(store.users))
              && (check == Match && UserByEmail(old(store.users), body.newEmail).None? ==>
                    && UserIndex(old(store.users), userId).Some?
                    && store.users == old(store.users)[UserIndex(old(store.users), userId).value :=
                         u.(email := body.newEmail, isVerified := false, verificationToken := Some(token),
                            verificationExpires := Some(now + VerificationLifetime), updatedAt := now)]
                    && r == (if mailOk then Ok(Ack(EmailChangedMessage)) else Err(MailFailed)))
  {
    var found := UserById(store.users, userId);
    if found.None? {
      return Err(UserNotFound);
    }
    var user := found.value;
    var check := ComparePassword(matches, body.password, user.password);
    if check == NoHash {
      return Err(MissingHash);
    }
    if check == Mismatch {
      return Err(InvalidPassword);
    }
    if UserByEmail(store.users, body.newEmail).Some? {
      return Err(EmailInUse);
    }
    IdFindsUser(store.users, user);
    var k := UserIndex(store.users, user.id).value;
    var patch := NoChange.(email := Some(body.newEmail), isVerified := Some(false),
                           verificationToken := Some(Some(token)),
                           verificationExpires := Some(Some(now + VerificationLifetime)));
    UpdateKeepsConsistent(store.users, k, ApplyPatch(user, patch, now));
    var updated := store.UpdateUser(user.id, patch, now);
    if !mailOk {
      return Err(MailFailed);
    }
    r := Ok(Ack(EmailChangedMessage));
  }

  /** changePassword: the user must exist and the current password must
      match; only the password changes, and every session stays. */
  method ChangePassword(store: MemStorage, userId: int, body: PasswordChangeBody, matches: (string, string) -> bool,
                        digest: string, now: Millis)
    returns (r: Result<Ack, AuthError>)
    requires store.Valid() && ServiceInvariant(store.State())
    modifies store
    ensures store.Valid() && ServiceInvariant(store.State())
    ensures store.State() == old(store.State()).(users := store.users)
    ensures UserById(old(store.users), userId).None? ==> r == Err(UserNotFound) && store.users == old(store.users)
    ensures UserById(old(store.users), userId).Some? ==>
              var u := UserById(old(store.users), userId).value;
              var check := ComparePassword(matches, body.currentPassword, u.password);
              && (check == NoHash ==> r == Err(MissingHash) && store.users == old(store.users))
              && (check == Mismatch ==> r == Err(CurrentPasswordIncorrect) && store.users == old(store.users))
              && (check == Match ==>
                    && UserIndex(old(store.users), userId).Some?
                    && store.users == old(store.users)[UserIndex(old(store.users), userId).value :=
                         u.(password := Some(digest), updatedAt := now)]
                    && r == Ok(Ack(PasswordChangedMessage)))
  {
    var found := UserById(store.users, userId);
    if found.None? {
      return Err(UserNotFound);
    }
    var user := found.value;
    var check := ComparePassword(matches, body.currentPassword, user.password);
    if check == NoHash {
      return Err(MissingHash);
    }
    if check == Mismatch {
      return Err(CurrentPasswordIncorrect);
    }
    IdFindsUser(store.users, user);
    var k := UserIndex(store.users, user.id).value;
    var patch := NoChange.(password := Some(Some(digest)));
    UpdateKeepsConsistent(store.users, k, ApplyPatch(user, patch, now));
    var updated := store.UpdateUser(user.id, patch, now);
    r := Ok(Ack(PasswordChangedMessage));
  }

  /** getUserProfile's answer. */
  datatype ProfileView = ProfileView(
    id: nat, email: string, username: string,
    firstName: Option<string>, lastName: Option<string>, isVerified: bool,
    profilePicture: Option<string>, twoFactorEnabled: bool,
    socialConnections: seq<Provider>)

  /** `connections.map(c => c.provider)`. */
  function Providers(conns: seq<SocialConnection>): (r: seq<Provider>)
    ensures |r| == |conns|
    ensures forall k :: 0 <= k < |r| ==> r[k] == conns[k].provider
  {
    seq(|conns|, k requires 0 <= k < |conns| => conns[k].provider)
  }

  /** getUserProfile: fails for an unknown user; otherwise lists exactly the
      providers the user is linked to, one entry per connection. */
  function UserProfile(users: seq<User>, conns: seq<SocialConnection>, userId: int): (r: Result<ProfileView, AuthError>)
    ensures r.Err? <==> UserById(users, userId).None?
    ensures r.Err? ==> r.error == UserNotFound
    ensures r.Ok? ==> r.value.id == userId && r.value.email == UserById(users, userId).value.email
    ensures r.Ok? ==>
              var u := UserById(users, userId).value;
              r.value.(socialConnections := []) ==
                ProfileView(u.id, u.email, u.username, u.firstName, u.lastName, u.isVerified, u.profilePicture, u.twoFactorEnabled, [])
    ensures r.Ok? ==> |r.value.socialConnections| == |UserConnections(conns, userId)|
    ensures r.Ok? ==> forall p :: p in r.value.socialConnections <==> ConnectionOf(conns, userId, p).Some?
  {
    match UserById(users, userId)
    case None => Err(UserNotFound)
    case Some(u) =>
      var mine := UserConnections(conns, userId);
      var providers := Providers(mine);
      assert forall p :: p in providers <==> exists c :: c in mine && c.provider == p by {
        forall p ensures p in providers <==> exists c :: c in mine && c.provider == p {
          if p in providers {
            var k :| 0 <= k < |providers| && providers[k] == p;
            assert mine[k] in mine;
          }
          if exists c :: c in mine && c.provider == p {
            var c :| c in mine && c.provider == p;
            var k :| 0 <= k < |mine| && mine[k] == c;
            assert providers[k] == p;
          }
        }
      }
      assert forall p :: ConnectionOf(conns, userId, p).Some? <==> exists c :: c in mine && c.provider == p by {
        forall p ensures ConnectionOf(conns, userId, p).Some? <==> exists c :: c in mine && c.provider == p {
          if ConnectionOf(conns, userId, p).Some? {
            assert ConnectionOf(conns, userId, p).value in mine;
          }
        }
      }
      Ok(ProfileView(u.id, u.email, u.username, u.firstName, u.lastName, u.isVerified,
                     u.profilePicture, u.twoFactorEnabled, providers))
  }

  /** One row of getUserSessions. */
  datatype SessionView = SessionView(
    id: nat, ipAddress: Option<string>, userAgent: Option<string>,
    location: Option<string>, timezone: Option<string>, createdAt: Millis)

  function SessionViewOf(s: Session): SessionView {
    SessionView(s.id, s.ipAddress, s.userAgent, s.location, s.timezone, s.createdAt)
  }

  /** getUserSessions: a row for each of the user's unexpired sessions and
      for nothing else. */
  function SessionViews(sessions: seq<Session>, userId: int, now: Millis): (r: seq<SessionView>)
    ensures |r| == |UserSessions(sessions, userId, now)|
    ensures forall v :: v in r ==> exists s :: s in sessions && s.userId == userId && s.expiresAt > now && SessionViewOf(s) == v
    ensures forall s :: s in sessions && s.userId == userId && s.expiresAt > now ==> SessionViewOf(s) in r
  {
    var live := UserSessions(sessions, userId, now);
    var r := seq(|live|, k requires 0 <= k < |live| => SessionViewOf(live[k]));
    assert forall s :: s in live ==> SessionViewOf(s) in r by {
      forall s | s in live ensures SessionViewOf(s) in r {
        var k :| 0 <= k < |live| && live[k] == s;
        assert r[k] == SessionViewOf(s);
      }
    }
    assert forall v :: v in r ==> exists s :: s in live && SessionViewOf(s) == v by {
      forall v | v in r ensures exists s :: s in live && SessionViewOf(s) == v {
        var k :| 0 <= k < |r| && r[k] == v;
        assert live[k] in live;
      }
    }
    r
  }

  /** At most one unexpired session carries `token`. */
  predicate TokenHeldOnce(sessions: seq<Session>, token: string, now: Millis) {
    forall i, j ::
      (&& 0 <= i < |sessions| && 0 <= j < |sessions| && sessions[i].token == token && sessions[j].token == token
       && Live(sessions[i], now) && Live(sessions[j], now)) ==> i == j
  }

  /** logoutUser: always succeeds; without an unexpired session for the
      token nothing changes, otherwise exactly that session is deleted. */
  method LogoutUser(store: MemStorage, token: string, now: Millis) returns (success: bool)
    requires store.Valid() && ServiceInvariant(store.State())
    modifies store
    ensures store.Valid() && ServiceInvariant(store.State())
    ensures success
    ensures store.State() == old(store.State()).(sessions := store.sessions)
    ensures SessionByToken(old(store.sessions), token, now).None? ==> store.sessions == old(store.sessions)
    ensures SessionByToken(old(store.sessions), token, now).Some? ==>
              store.sessions == WithoutIds(old(store.sessions), {SessionByToken(old(store.sessions), token, now).value.id})
    ensures TokenHeldOnce(old(store.sessions), token, now) ==> SessionByToken(store.sessions, token, now).None?
  {
    var found := SessionByToken(store.sessions, token, now);
    if found.None? {
      return true;
    }
    ghost var before := store.sessions;
    var deleted := store.DeleteSession(found.value.id);
    if TokenHeldOnce(before, token, now) {
      forall s | s in store.sessions ensures !(s.token == token && s.expiresAt > now) {
        var i :| 0 <= i < |before| && before[i] == s;
        var j :| 0 <= j < |before| && before[j] == found.value;
        assert s.id != found.value.id;
      }
    }
    success := true;
  }

  /** logoutAllDevices: deleteUserSessions on the caller. */
  method LogoutAllDevices(store: MemStorage, userId: int, now: Millis) returns (success: bool)
    requires store.Valid() && ServiceInvariant(store.State())
    modifies store
    ensures store.Valid() && ServiceInvariant(store.State())
    ensures success
    ensures store.State() == old(store.State()).(sessions := store.sessions)
    ensures store.sessions == Filter(old(store.sessions), NotLiveOf(userId, now))
  {
    success := store.DeleteUserSessions(userId, now);
  }

  /** The user record handleSocialLogin creates: verified, no password,
      names and picture from the provider (empty strings stored as null). */
  function SocialRecord(email: string, username: string, profile: ProviderProfile): NewUser {
    Insert(email, username).(
      firstName := OrNull(profile.firstName), lastName := OrNull(profile.lastName),
      isVerified := Some(true), profilePicture := OrNull(profile.profilePicture))
  }

  /** The connection createSocialConnection stores for `user`. */
  function LinkFor(id: nat, user: User, provider: Provider, providerId: string, profile: ProviderProfile, now: Millis): SocialConnection {
    SocialConnection(id, user.id, provider, providerId, profile, now, now)
  }

  /** handleSocialLogin's sign-up branch: a new user under the first free
      username derived from the email, linked to the provider account. */
  method SignUpSocialUser(store: MemStorage, provider: Provider, providerId: string, email: string,
                          profile: ProviderProfile, now: Millis)
    returns (user: User)
    requires store.Valid() && ServiceInvariant(store.State())
    requires ConnectionByProviderId(store.connections, provider, providerId).None?
    requires UserByEmail(store.users, email).None?
    modifies store
    ensures store.Valid() && ServiceInvariant(store.State())
    ensures store.sessions == old(store.sessions) && store.nextSessionId == old(store.nextSessionId)
    ensures store.nextUserId == old(store.nextUserId) + 1 && store.nextConnectionId == old(store.nextConnectionId) + 1
    ensures store.users == old(store.users) + [user]
    ensures store.connections == old(store.connections) + [LinkFor(old(store.nextConnectionId), user, provider, providerId, profile, now)]
    ensures user.id == old(store.nextUserId) && user.email == email && user.password.None?
    ensures user.isVerified && !user.twoFactorEnabled && user.firstName == OrNull(profile.firstName)
    ensures UserByUsername(old(store.users), user.username).None?
    ensures user == BuildUser(SocialRecord(email, user.username, profile), old(store.nextUserId), now)
    ensures exists k: nat :: && k <= |old(store.users)| && user.username == Candidate(LocalPart(email), k)
                             && forall j :: 0 <= j < k ==> UserByUsername(old(store.users), Candidate(LocalPart(email), j)).Some?
  {
    var username, suffix := GenerateUniqueUsername(store.users, LocalPart(email));
    var record := SocialRecord(email, username, profile);
    FreshKeysFit(store.users, BuildUser(record, store.nextUserId, now));
    AppendKeepsConsistent(store.users, BuildUser(record, store.nextUserId, now));
    user := store.CreateUser(record, now);
    LinkKeepsUnique(store.connections, LinkFor(store.nextConnectionId, user, provider, providerId, profile, now));
    var c := store.CreateSocialConnection(NewConnection(user.id, provider, providerId, profile), now);
  }

  /** handleSocialLogin's linking branch: the provider account is attached
      to the user who already has that email. */
  method LinkExistingUser(store: MemStorage, provider: Provider, providerId: string, user: User,
                          profile: ProviderProfile, now: Millis)
    requires store.Valid() && ServiceInvariant(store.State())
    requires ConnectionByProviderId(store.connections, provider, providerId).None?
    modifies store
    ensures store.Valid() && ServiceInvariant(store.State())
    ensures store.State() == old(store.State()).(connections := store.connections, nextConnectionId := old(store.nextConnectionId) + 1)
    ensures store.connections == old(store.connections) + [LinkFor(old(store.nextConnectionId), user, provider, providerId, profile, now)]
  {
    LinkKeepsUnique(store.connections, LinkFor(store.nextConnectionId, user, provider, providerId, profile, now));
    var c := store.CreateSocialConnection(NewConnection(user.id, provider, providerId, profile), now);
  }

  /** handleSocialLogin. A provider account already linked logs its user in;
      otherwise it is linked to the user with that email, or a new verified,
      password-less user with the first free username is created and linked
      (and a failed welcome mail then throws with both kept). Then a 30-day
      token and one session are issued. */
  method HandleSocialLogin(store: MemStorage, provider: Provider, providerId: string, email: string,
                           profile: ProviderProfile, client: ClientInfo, issue: Issuer, now: Millis, mailOk: bool)
    returns (r: Result<LoginResult, AuthError>)
    requires store.Valid() && ServiceInvariant(store.State())
    modifies store
    ensures store.Valid() && ServiceInvariant(store.State())
    ensures ConnectionByProviderId(old(store.connections), provider, providerId).Some? ==>
              var link := ConnectionByProviderId(old(store.connections), provider, providerId).value;
              && store.users == old(store.users) && store.connections == old(store.connections)
              && (UserById(old(store.users), link.userId).None? ==>
                    r == Err(OrphanConnection) && store.State() == old(store.State()))
              && (UserById(old(store.users), link.userId).Some? ==>
                    var u := UserById(old(store.users), link.userId).value;
                    var t := issue(Claims(u.id, false), FullTtl, now);
                    && r == Ok(Authenticated(t, LoginViewOf(u)))
                    && store.sessions == old(store.sessions) + [BuildSession(SessionFor(u.id, t, client, now), old(store.nextSessionId), now)]
                    && store.State() == old(store.State()).(sessions := store.sessions, nextSessionId := old(store.nextSessionId) + 1))
    ensures ConnectionByProviderId(old(store.connections), provider, providerId).None?
            && UserByEmail(old(store.users), email).Some? ==>
              var u := UserByEmail(old(store.users), email).value;
              var t := issue(Claims(u.id, false), FullTtl, now);
              && store.users == old(store.users)
              && store.connections == old(store.connections) + [LinkFor(old(store.nextConnectionId), u, provider, providerId, profile, now)]
              && r == Ok(Authenticated(t, LoginViewOf(u)))
              && store.sessions == old(store.sessions) + [BuildSession(SessionFor(u.id, t, client, now), old(store.nextSessionId), now)]
              && store.nextUserId == old(store.nextUserId)
              && store.nextConnectionId == old(store.nextConnectionId) + 1 && store.nextSessionId == old(store.nextSessionId) + 1
    ensures ConnectionByProviderId(old(store.connections), provider, providerId).None?
            && UserByEmail(old(store.users), email).None? ==>
              && |store.users| == |old(store.users)| + 1
              && store.users[..|old(store.users)|] == old(store.users)
              && var u := store.users[|old(store.users)|];
              && u == BuildUser(SocialRecord(email, u.username, profile), old(store.nextUserId), now)
              && UserByUsername(old(store.users), u.username).None?
              && (exists k: nat :: && k <= |old(store.users)| && u.username == Candidate(LocalPart(email), k)
                                   && forall j :: 0 <= j < k ==> UserByUsername(old(store.users), Candidate(LocalPart(email), j)).Some?)
              && store.nextUserId == old(store.nextUserId) + 1 && store.nextConnectionId == old(store.nextConnectionId) + 1
              && store.nextSessionId == old(store.nextSessionId) + (if mailOk then 1 else 0)
              && store.connections == old(store.connections) + [LinkFor(old(store.nextConnectionId), u, provider, providerId, profile, now)]
              && (!mailOk ==> r == Err(MailFailed) && store.sessions == old(store.sessions))
              && (mailOk ==>
                    var t := issue(Claims(u.id, false), FullTtl, now);
                    && r == Ok(Authenticated(t, LoginViewOf(u)))
                    && store.sessions == old(store.sessions) + [BuildSession(SessionFor(u.id, t, client, now), old(store.nextSessionId), now)])
  {
    var user: User;
    var link := ConnectionByProviderId(store.connections, provider, providerId);
    if link.Some? {
      var owner := UserById(store.users, link.value.userId);
      if owner.None? {
        return Err(OrphanConnection);
      }
      user := owner.value;
    } else {
      var existing := UserByEmail(store.users, email);
      if existing.Some? {
        user := existing.value;
        LinkExistingUser(store, provider, providerId, user, profile, now);
      } else {
        ghost var before := store.users;
        user := SignUpSocialUser(store, provider, providerId, email, profile, now);
        assert store.users[..|before|] == before;
        if !mailOk {
          return Err(MailFailed);
        }
      }
    }
    var token := issue(Claims(user.id, false), FullTtl, now);
    var session := store.CreateSession(SessionFor(user.id, token, client, now), now);
    r := Ok(Authenticated(token, LoginViewOf(user)));
  }
}
