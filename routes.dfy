/** The handlers of server/routes.ts that hold logic of their own: the
    validation-error formatter, the four two-factor routes and the profile
    update. Each handler runs after the middleware and receives what it
    attached (`req.user`, `req.clientInfo`); TOTP checking is the `totp`
    parameter (speakeasy with a window of one step), and the generated
    secret is passed in. */
module Routes {
  import opened Common
  import opened Schema
  import opened Storage
  import opened Accounts
  import opened AuthService
  import opened Middleware

  /** An error answer: the status and the `message` of its JSON body. */
  datatype Failure = Failure(status: int, message: string)

  /** speakeasy.totp.verify(secret, code) as of `now`. */
  type Totp = (string, string, Millis) -> bool

  const ValidationFailed := "Validation failed"
  const UserMissing := "User not found"
  const SetupNotInitiated := "2FA setup not initiated"
  const InvalidCode := "Invalid verification code"
  const NotEnabled := "2FA is not enabled"
  const NotEnabledForUser := "2FA is not enabled for this user"
  const TempTokenRequired := "Temporary token required"
  const Enabled := "Two-factor authentication enabled successfully"
  const Disabled := "Two-factor authentication disabled successfully"
  const UsernameTaken := "Username is already taken"
  const ProfileUpdated := "Profile updated successfully"

  // ---------------------------------------------------------------------------
  // validateRequest
  // ---------------------------------------------------------------------------

  /** `err.path.join('.')`. */
  function PathKey(i: Issue): string {
    Join(i.path, '.')
  }

  /** The keys of the formatted errors: every issue's joined path. */
  function PathKeys(issues: seq<Issue>): set<string> {
    set i | i in issues :: PathKey(i)
  }

  /** The messages filed under `key`, in the order the issues came. */
  function MessagesAt(issues: seq<Issue>, key: string): seq<string> {
    if |issues| == 0 then []
    else
      var last := issues[|issues| - 1];
      MessagesAt(issues[..|issues| - 1], key) + (if PathKey(last) == key then [last.message] else [])
  }

  /** Every issue's message is filed under its own path. */
  lemma {:induction false} IssueListed(issues: seq<Issue>, n: nat)
    requires n < |issues|
    ensures issues[n].message in MessagesAt(issues, PathKey(issues[n]))
    decreases |issues|
  {
    var front := issues[..|issues| - 1];
    if n < |issues| - 1 {
      assert front[n] == issues[n];
      IssueListed(front, n);
    }
  }

  /** Nothing is filed under a path that no issue has. */
  lemma {:induction false} MessagesOnlyFromKey(issues: seq<Issue>, key: string, m: string)
    requires m in MessagesAt(issues, key)
    ensures exists i :: i in issues && PathKey(i) == key && i.message == m
    decreases |issues|
  {
    var front := issues[..|issues| - 1];
    var last := issues[|issues| - 1];
    if m in MessagesAt(front, key) {
      MessagesOnlyFromKey(front, key, m);
      var i :| i in front && PathKey(i) == key && i.message == m;
      assert i in issues;
    } else {
      assert last in issues;
    }
  }

  /** One message per issue with that path, so nothing is lost or repeated. */
  lemma {:induction false} MessagesAtCount(issues: seq<Issue>, key: string)
    ensures |MessagesAt(issues, key)| == |set n | 0 <= n < |issues| && PathKey(issues[n]) == key|
    decreases |issues|
  {
    var at := set n | 0 <= n < |issues| && PathKey(issues[n]) == key;
    if |issues| > 0 {
      var front := issues[..|issues| - 1];
      var last := |issues| - 1;
      var before := set n | 0 <= n < |front| && PathKey(front[n]) == key;
      MessagesAtCount(front, key);
      if PathKey(issues[last]) == key {
        assert at == before + {last};
      } else {
        assert at == before;
      }
    }
  }

  lemma EmptyWithoutKey(issues: seq<Issue>, key: string)
    requires key !in PathKeys(issues)
    ensures MessagesAt(issues, key) == []
    decreases |issues|
  {
    if |issues| > 0 {
      var front := issues[..|issues| - 1];
      assert PathKeys(front) <= PathKeys(issues) by {
        forall i | i in front ensures i in issues { }
      }
      assert issues[|issues| - 1] in issues;
      EmptyWithoutKey(front, key);
    }
  }

  /** validateRequest's forEach: groups the messages by joined path, in
      order, one list per path that occurs. */
  method FormatIssues(issues: seq<Issue>) returns (errors: map<string, seq<string>>)
    ensures errors.Keys == PathKeys(issues)
    ensures forall key :: key in errors ==> errors[key] == MessagesAt(issues, key)
  {
    errors := map[];
    for n := 0 to |issues|
      invariant errors.Keys == PathKeys(issues[..n])
      invariant forall key :: key in errors ==> errors[key] == MessagesAt(issues[..n], key)
    {
      var key := PathKey(issues[n]);
      assert issues[..n + 1][..n] == issues[..n];
      assert PathKeys(issues[..n + 1]) == PathKeys(issues[..n]) + {key} by {
        assert issues[..n + 1] == issues[..n] + [issues[n]];
      }
      if key !in errors {
        EmptyWithoutKey(issues[..n], key);
        errors := errors[key := []];
      }
      errors := errors[key := errors[key] + [issues[n].message]];
    }
    assert issues[..|issues|] == issues;
  }

  /** The 400 answer of a failed parse. */
  datatype Rejection = Rejection(status: int, message: string, errors: map<string, seq<string>>)

  /** validateRequest(schema): a parsed body goes on to the handler; a zod
      failure answers 400 'Validation failed' with the grouped messages. */
  method ValidateRequest<T>(parsed: Result<T, seq<Issue>>) returns (r: Result<T, Rejection>)
    ensures parsed.Ok? ==> r == Ok(parsed.value)
    ensures parsed.Err? ==> r.Err? && r.error.status == 400 && r.error.message == ValidationFailed
    ensures parsed.Err? ==> r.error.errors.Keys == PathKeys(parsed.error)
    ensures parsed.Err? ==> forall key :: key in r.error.errors ==> r.error.errors[key] == MessagesAt(parsed.error, key)
  {
    if parsed.Ok? {
      return Ok(parsed.value);
    }
    var errors := FormatIssues(parsed.error);
    r := Err(Rejection(400, ValidationFailed, errors));
  }

  // ---------------------------------------------------------------------------
  // Two-factor routes
  // ---------------------------------------------------------------------------

  /** The user `id` refers to is at `UserIndex`, and is the user found. */
  lemma FoundAtIndex(users: seq<User>, id: int)
    requires UsersAscending(users) && UserById(users, id).Some?
    ensures UserIndex(users, id).Some? && users[UserIndex(users, id).value] == UserById(users, id).value
  {
    IdFindsUser(users, UserById(users, id).value);
  }

  /** `users` with the user of id `id` (present) replaced by `v`. */
  function Replaced(users: seq<User>, id: int, v: User): (r: seq<User>)
    requires UsersAscending(users) && UserById(users, id).Some?
    ensures |r| == |users|
    ensures forall j :: 0 <= j < |users| && users[j].id != id ==> r[j] == users[j]
    ensures v in r
  {
    FoundAtIndex(users, id);
    var k := UserIndex(users, id).value;
    assert users[k := v][k] == v;
    users[k := v]
  }

  /** POST /api/auth/2fa/setup: stores a new secret for the caller (even one
      whose 2FA is already on) and leaves `twoFactorEnabled` alone. */
  method TwoFactorSetup(store: MemStorage, user: Option<AuthUser>, secret: string, now: Millis)
    returns (r: Result<string, Failure>)
    requires store.Valid() && ServiceInvariant(store.State())
    modifies store
    ensures store.Valid() && ServiceInvariant(store.State())
    ensures store.State() == old(store.State()).(users := store.users)
    ensures user.None? ==> r == Err(Failure(401, AuthRequired)) && store.users == old(store.users)
    ensures user.Some? && UserById(old(store.users), user.value.id).None? ==>
              r == Err(Failure(404, UserMissing)) && store.users == old(store.users)
    ensures user.Some? && UserById(old(store.users), user.value.id).Some? ==>
              var u := UserById(old(store.users), user.value.id).value;
              && r == Ok(secret)
              && store.users == Replaced(old(store.users), u.id, u.(twoFactorSecret := Some(secret), updatedAt := now))
  {
    if user.None? {
      return Err(Failure(401, AuthRequired));
    }
    var found := UserById(store.users, user.value.id);
    if found.None? {
      return Err(Failure(404, UserMissing));
    }
    var u := found.value;
    FoundAtIndex(store.users, u.id);
    var patch := NoChange.(twoFactorSecret := Some(Some(secret)));
    UpdateKeepsConsistent(store.users, UserIndex(store.users, u.id).value, ApplyPatch(u, patch, now));
    var updated := store.UpdateUser(u.id, patch, now);
    r := Ok(secret);
  }

  /** POST /api/auth/2fa/verify: with a stored secret and an accepted code,
      turns 2FA on and changes nothing else. */
  method TwoFactorVerify(store: MemStorage, user: Option<AuthUser>, code: string, totp: Totp, now: Millis)
    returns (r: Result<string, Failure>)
    requires store.Valid() && ServiceInvariant(store.State())
    modifies store
    ensures store.Valid() && ServiceInvariant(store.State())
    ensures store.State() == old(store.State()).(users := store.users)
    ensures r.Err? ==> store.users == old(store.users)
    ensures user.None? ==> r == Err(Failure(401, AuthRequired))
    ensures user.Some? ==>
              var found := UserById(old(store.users), user.value.id);
              && (found.None? || !Truthy(found.value.twoFactorSecret) ==> r == Err(Failure(400, SetupNotInitiated)))
              && (found.Some? && Truthy(found.value.twoFactorSecret) ==>
                    var u := found.value;
                    && (!totp(u.twoFactorSecret.value, code, now) ==> r == Err(Failure(400, InvalidCode)))
                    && (totp(u.twoFactorSecret.value, code, now) ==>
                          && r == Ok(Enabled)
                          && store.users == Replaced(old(store.users), u.id, u.(twoFactorEnabled := true, updatedAt := now))))
  {
    if user.None? {
      return Err(Failure(401, AuthRequired));
    }
    var found := UserById(store.users, user.value.id);
    if found.None? || !Truthy(found.value.twoFactorSecret) {
      return Err(Failure(400, SetupNotInitiated));
    }
    var u := found.value;
    if !totp(u.twoFactorSecret.value, code, now) {
      return Err(Failure(400, InvalidCode));
    }
    FoundAtIndex(store.users, u.id);
    var patch := NoChange.(twoFactorEnabled := Some(true));
    UpdateKeepsConsistent(store.users, UserIndex(store.users, u.id).value, ApplyPatch(u, patch, now));
    var updated := store.UpdateUser(u.id, patch, now);
    r := Ok(Enabled);
  }

  /** POST /api/auth/2fa/disable: only for a user with 2FA on and a secret,
      and only with an accepted code; then both are cleared. */
  method TwoFactorDisable(store: MemStorage, user: Option<AuthUser>, code: string, totp: Totp, now: Millis)
    returns (r: Result<string, Failure>)
    requires store.Valid() && ServiceInvariant(store.State())
    modifies store
    ensures store.Valid() && ServiceInvariant(store.State())
    ensures store.State() == old(store.State()).(users := store.users)
    ensures r.Err? ==> store.users == old(store.users)
    ensures user.None? ==> r == Err(Failure(401, AuthRequired))
    ensures user.Some? ==>
              var found := UserById(old(store.users), user.value.id);
              && (found.None? || !Truthy(found.value.twoFactorSecret) || !found.value.twoFactorEnabled ==>
                    r == Err(Failure(400, NotEnabled)))
              && (found.Some? && Truthy(found.value.twoFactorSecret) && found.value.twoFactorEnabled ==>
                    var u := found.value;
                    && (!totp(u.twoFactorSecret.value, code, now) ==> r == Err(Failure(400, InvalidCode)))
                    && (totp(u.twoFactorSecret.value, code, now) ==>
                          && r == Ok(Disabled)
                          && store.users == Replaced(old(store.users), u.id,
                               u.(twoFactorEnabled := false, twoFactorSecret := None, updatedAt := now))))
  {
    if user.None? {
      return Err(Failure(401, AuthRequired));
    }
    var found := UserById(store.users, user.value.id);
    if found.None? || !Truthy(found.value.twoFactorSecret) || !found.value.twoFactorEnabled {
      return Err(Failure(400, NotEnabled));
    }
    var u := found.value;
    if !totp(u.twoFactorSecret.value, code, now) {
      return Err(Failure(400, InvalidCode));
    }
    FoundAtIndex(store.users, u.id);
    var patch := NoChange.(twoFactorEnabled := Some(false), twoFactorSecret := Some(None));
    UpdateKeepsConsistent(store.users, UserIndex(store.users, u.id).value, ApplyPatch(u, patch, now));
    var updated := store.UpdateUser(u.id, patch, now);
    r := Ok(Disabled);
  }

  /** The checks /api/auth/2fa/validate makes before the code: the temp
      token must verify and carry a truthy `userId` and `require2FA`, and
      its user must have 2FA on with a secret. */
  function PendingUser(users: seq<User>, header: Option<string>, verify: Verifier, now: Millis): (r: Result<User, Failure>)
    ensures r.Ok? ==>
              && BearerToken(header).Some?
              && verify(BearerToken(header).value, now) == Some(Claims(r.value.id, true))
              && r.value.id != 0
              && UserById(users, r.value.id) == Some(r.value)
              && r.value.twoFactorEnabled && Truthy(r.value.twoFactorSecret)
    ensures r.Err? ==> r.error.status == 401 || r.error == Failure(400, NotEnabledForUser)
    ensures BearerToken(header).None? ==> r == Err(Failure(401, TempTokenRequired))
    ensures BearerToken(header).Some? && r.Err? && r.error.status == 401 ==> r.error == Failure(401, InvalidToken)
    ensures (r.Err? && r.error.status == 401) <==>
              || BearerToken(header).None?
              || verify(BearerToken(header).value, now).None?
              || verify(BearerToken(header).value, now).value.userId == 0
              || !verify(BearerToken(header).value, now).value.require2FA
    ensures BearerToken(header).Some? && verify(BearerToken(header).value, now).Some? ==>
              var c := verify(BearerToken(header).value, now).value;
              c.userId != 0 && c.require2FA && UserById(users, c.userId).Some?
              && UserById(users, c.userId).value.twoFactorEnabled && Truthy(UserById(users, c.userId).value.twoFactorSecret)
              ==> r == Ok(UserById(users, c.userId).value)
  {
    match BearerToken(header)
    case None => Err(Failure(401, TempTokenRequired))
    case Some(t) =>
      match verify(t, now)
      case None => Err(Failure(401, InvalidToken))
      case Some(c) =>
        if c.userId == 0 || !c.require2FA then Err(Failure(401, InvalidToken))
        else match UserById(users, c.userId)
          case None => Err(Failure(400, NotEnabledForUser))
          case Some(u) =>
            if !Truthy(u.twoFactorSecret) || !u.twoFactorEnabled then Err(Failure(400, NotEnabledForUser))
            else Ok(u)
  }

  /** POST /api/auth/2fa/validate: a pending user with an accepted code gets
      a full 30-day token and exactly one session; every failure leaves the
      store as it was. */
  method TwoFactorValidate(store: MemStorage, header: Option<string>, code: string, client: ClientInfo,
                           verify: Verifier, totp: Totp, issue: Issuer, now: Millis)
    returns (r: Result<LoginResult, Failure>)
    requires store.Valid() && ServiceInvariant(store.State())
    modifies store
    ensures store.Valid() && ServiceInvariant(store.State())
    ensures store.users == old(store.users) && store.connections == old(store.connections)
    ensures r.Err? ==> store.State() == old(store.State())
    ensures PendingUser(old(store.users), header, verify, now).Err? ==>
              r == Err(PendingUser(old(store.users), header, verify, now).error)
    ensures PendingUser(old(store.users), header, verify, now).Ok? ==>
              var u := PendingUser(old(store.users), header, verify, now).value;
              && (!totp(u.twoFactorSecret.value, code, now) ==> r == Err(Failure(400, InvalidCode)))
              && (totp(u.twoFactorSecret.value, code, now) ==>
                    var t := issue(Claims(u.id, false), FullTtl, now);
                    && r == Ok(Authenticated(t, LoginViewOf(u)))
                    && store.sessions == old(store.sessions) + [BuildSession(SessionFor(u.id, t, client, now), old(store.nextSessionId), now)]
                    && store.State() == old(store.State()).(sessions := store.sessions, nextSessionId := old(store.nextSessionId) + 1))
  {
    var pending := PendingUser(store.users, header, verify, now);
    if pending.Err? {
      return Err(pending.error);
    }
    var u := pending.value;
    if !totp(u.twoFactorSecret.value, code, now) {
      return Err(Failure(400, InvalidCode));
    }
    var fullToken := issue(Claims(u.id, false), FullTtl, now);
    var session := store.CreateSession(SessionFor(u.id, fullToken, client, now), now);
    r := Ok(Authenticated(fullToken, LoginViewOf(u)));
  }

  /** The token /2fa/validate hands out is a full token: once its session is
      stored it passes the whole guard chain while the JWT is still valid. */
  lemma ValidatedTokenIsFull(scheme: string, u: User, client: ClientInfo, sessions: seq<Session>, nextId: nat,
                             issue: Issuer, verify: Verifier, issuedAt: Millis, now: Millis)
    requires Faithful(issue, verify)
    requires ' ' !in scheme && ' ' !in issue(Claims(u.id, false), FullTtl, issuedAt)
    requires issue(Claims(u.id, false), FullTtl, issuedAt) != ""
    requires verify(issue(Claims(u.id, false), FullTtl, issuedAt), now).Some?
    requires now < issuedAt + SessionLifetime
    ensures var t := issue(Claims(u.id, false), FullTtl, issuedAt);
            var stored := sessions + [BuildSession(SessionFor(u.id, t, client, issuedAt), nextId, issuedAt)];
            GuardChain(Some(scheme + " " + t), verify, stored, now) == Next
  {
    var t := issue(Claims(u.id, false), FullTtl, issuedAt);
    var s := BuildSession(SessionFor(u.id, t, client, issuedAt), nextId, issuedAt);
    var stored := sessions + [s];
    assert s in stored;
    FullTokenPasses(scheme, u.id, FullTtl, issuedAt, now, issue, verify, stored);
  }

  // ---------------------------------------------------------------------------
  // PATCH /api/user/profile
  // ---------------------------------------------------------------------------

  /** The uniqueness check as written: `if (req.body.username)` skips it for
      an absent and for an empty username. */
  function UsernameCheckAsWritten(users: seq<User>, callerId: int, username: Option<string>): (r: Option<Failure>)
    ensures r.Some? <==>
              && Truthy(username)
              && UserByUsername(users, username.value).Some?
              && UserByUsername(users, username.value).value.id != callerId
    ensures r.Some? ==> r.value == Failure(400, UsernameTaken)
  {
    if Truthy(username) then
      match UserByUsername(users, username.value)
      case Some(existing) => if existing.id != callerId then Some(Failure(400, UsernameTaken)) else None
      case None => None
    else None
  }

  /** The check as intended: every username the patch sets, the empty one
      included, must be free or the caller's own. */
  function UsernameCheck(users: seq<User>, callerId: int, username: Option<string>): (r: Option<Failure>)
    ensures r.Some? <==>
              && username.Some?
              && UserByUsername(users, username.value).Some?
              && UserByUsername(users, username.value).value.id != callerId
    ensures r.Some? ==> r.value == Failure(400, UsernameTaken)
  {
    if username.Some? then
      match UserByUsername(users, username.value)
      case Some(existing) => if existing.id != callerId then Some(Failure(400, UsernameTaken)) else None
      case None => None
    else None
  }

  /** Two users named alike are, in a consistent table, the same user. */
  lemma OneHolderPerName(users: seq<User>, i: nat, j: nat, name: string)
    requires Consistent(users) && i < |users| && j < |users|
    requires SameName(users[i].username, name) && SameName(users[j].username, name)
    ensures i == j
  {
  }

  /** A username the corrected check lets through clashes with nobody but
      the caller. */
  lemma PassedNameIsFree(users: seq<User>, k: nat, name: string)
    requires Consistent(users) && UsersAscending(users) && k < |users|
    requires UsernameCheck(users, users[k].id, Some(name)).None?
    ensures forall j :: 0 <= j < |users| && j != k ==> !SameName(users[j].username, name)
  {
    forall j | 0 <= j < |users| && j != k ensures !SameName(users[j].username, name) {
      if SameName(users[j].username, name) {
        var w := UserByUsername(users, name).value;
        var i :| 0 <= i < |users| && users[i] == w;
        IdFindsUser(users, w);
        IdFindsUser(users, users[k]);
        assert users[i].id == users[k].id;
        OneHolderPerName(users, i, j, name);
      }
    }
  }

  /** In a consistent table the corrected check refuses exactly the names
      another user holds, the empty name included. */
  lemma TakenNameRefused(users: seq<User>, k: nat, j: nat, name: string)
    requires Consistent(users) && UsersAscending(users) && k < |users| && j < |users| && j != k
    requires SameName(users[j].username, name)
    ensures UsernameCheck(users, users[k].id, Some(name)) == Some(Failure(400, UsernameTaken))
  {
    var w := UserByUsername(users, name).value;
    var i :| 0 <= i < |users| && users[i] == w;
    OneHolderPerName(users, i, j, name);
    IdFindsUser(users, users[k]);
  }

  /** The profile answer. */
  datatype ProfileAnswer = ProfileAnswer(
    id: nat, email: string, username: string,
    firstName: Option<string>, lastName: Option<string>, profilePicture: Option<string>)

  function ProfileAnswerOf(u: User): ProfileAnswer {
    ProfileAnswer(u.id, u.email, u.username, u.firstName, u.lastName, u.profilePicture)
  }

  /** PATCH /api/user/profile with the corrected check: a taken username is
      refused with nothing changed; otherwise the four whitelisted fields
      are merged into the caller's record, and usernames stay unique. An
      unknown caller makes updateUser throw, answered with its message. */
  method UpdateProfile(store: MemStorage, user: Option<AuthUser>, update: ProfileUpdate, now: Millis)
    returns (r: Result<ProfileAnswer, Failure>)
    requires store.Valid() && ServiceInvariant(store.State())
    modifies store
    ensures store.Valid() && ServiceInvariant(store.State())
    ensures store.State() == old(store.State()).(users := store.users)
    ensures r.Err? ==> store.users == old(store.users)
    ensures user.None? ==> r == Err(Failure(401, AuthRequired))
    ensures user.Some? && UsernameCheck(old(store.users), user.value.id, update.username).Some? ==>
              r == Err(UsernameCheck(old(store.users), user.value.id, update.username).value)
    ensures user.Some? && UsernameCheck(old(store.users), user.value.id, update.username).None? ==>
              && (UserById(old(store.users), user.value.id).None? ==>
                    r == Err(Failure(500, "User with id " + JsNumber(user.value.id) + " not found")))
              && (UserById(old(store.users), user.value.id).Some? ==>
                    var u := UserById(old(store.users), user.value.id).value;
                    var v := ApplyPatch(u, ProfilePatch(update), now);
                    && r == Ok(ProfileAnswerOf(v))
                    && store.users == Replaced(old(store.users), u.id, v))
  {
    if user.None? {
      return Err(Failure(401, AuthRequired));
    }
    var refusal := UsernameCheck(store.users, user.value.id, update.username);
    if refusal.Some? {
      return Err(refusal.value);
    }
    var found := UserById(store.users, user.value.id);
    if found.Some? {
      var u := found.value;
      FoundAtIndex(store.users, u.id);
      var k := UserIndex(store.users, u.id).value;
      if update.username.Some? {
        PassedNameIsFree(store.users, k, update.username.value);
      }
      UpdateKeepsConsistent(store.users, k, ApplyPatch(u, ProfilePatch(update), now));
    }
    var updated := store.UpdateUser(user.value.id, ProfilePatch(update), now);
    if updated.None? {
      return Err(Failure(500, "User with id " + JsNumber(user.value.id) + " not found"));
    }
    r := Ok(ProfileAnswerOf(updated.value));
  }

  /** `${id}` for an integer id. */
  function JsNumber(n: int): string {
    if n < 0 then "-" + Decimal(-n) else Decimal(n)
  }

  /** As written, the empty username slips past the check: a second user
      can take the empty name another user already holds, which breaks
      username uniqueness; the corrected check refuses it. */
  lemma EmptyUsernameSlipsThrough()
    ensures var ann := BuildUser(Insert("ann@example.com", ""), 1, 0);
            var bob := BuildUser(Insert("bob@example.com", "bob"), 2, 0);
            var users := [ann, bob];
            && Consistent(users)
            && UsernameCheckAsWritten(users, bob.id, Some("")).None?
            && !Consistent(users[1 := ApplyPatch(bob, ProfilePatch(ProfileUpdate(None, None, Some(""), None)), 0)])
            && UsernameCheck(users, bob.id, Some("")) == Some(Failure(400, UsernameTaken))
  {
    var ann := BuildUser(Insert("ann@example.com", ""), 1, 0);
    var bob := BuildUser(Insert("bob@example.com", "bob"), 2, 0);
    var users := [ann, bob];
    assert Lower("ann@example.com") != Lower("bob@example.com") by {
      assert Lower("ann@example.com")[0] == 'a';
      assert Lower("bob@example.com")[0] == 'b';
    }
    assert Lower("") != Lower("bob") by {
      assert |Lower("bob")| == 3;
    }
    assert Distinct(users[0], users[1]);
    assert Distinct(users[1], users[0]);
    assert UserByUsername(users, "") == Some(ann);
    var renamed := users[1 := ApplyPatch(bob, ProfilePatch(ProfileUpdate(None, None, Some(""), None)), 0)];
    assert !Distinct(renamed[0], renamed[1]);
  }
}
