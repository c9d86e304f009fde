/** The guard chain of server/middleware/auth.ts. A request is a `Request`
    object whose header fields are fixed and whose `user`, `token` and
    `clientInfo` slots the middleware fills in; token verification is the
    `verify` parameter (jwt.verify with the server secret, at time `now`). */
module Middleware {
  import opened Common
  import opened Schema
  import opened Storage
  import opened AuthService

  /** verifyToken as of `now`: the payload, or null for a bad or expired token. */
  type Verifier = (string, Millis) -> Option<Claims>

  /** A header Node may deliver as a string or as a list of strings. */
  datatype HeaderValue = Absent | Single(value: string) | Multi(values: seq<string>)

  /** What authenticateJWT attaches as `req.user`. */
  datatype AuthUser = AuthUser(id: int, require2FA: bool)

  /** A middleware either calls `next()` or answers with a status. */
  datatype Outcome = Next | Reject(status: int, message: string, requiresTwoFactor: bool)

  const AuthRequired := "Authentication required"
  const InvalidToken := "Invalid or expired token"
  const TwoFactorRequired := "Two-factor authentication required"
  const SessionInvalid := "Session expired or invalid"
  const Unknown := "Unknown"

  /** An Express request as the middleware sees it. */
  class Request {
    const authorization: Option<string>
    const ip: Option<string>
    const forwardedFor: HeaderValue
    const remoteAddress: Option<string>
    const userAgentHeader: Option<string>
    var user: Option<AuthUser>
    var token: Option<string>
    var clientInfo: Option<ClientInfo>

    /** A request before any middleware has run. */
    constructor (authorization: Option<string>, ip: Option<string>, forwardedFor: HeaderValue,
                 remoteAddress: Option<string>, userAgentHeader: Option<string>)
      ensures this.authorization == authorization && this.ip == ip && this.forwardedFor == forwardedFor
      ensures this.remoteAddress == remoteAddress && this.userAgentHeader == userAgentHeader
      ensures user.None? && token.None? && clientInfo.None?
    {
      this.authorization := authorization;
      this.ip := ip;
      this.forwardedFor := forwardedFor;
      this.remoteAddress := remoteAddress;
      this.userAgentHeader := userAgentHeader;
      user := None;
      token := None;
      clientInfo := None;
    }
  }

  /** JavaScript truthiness of an optional string. */
  predicate Truthy(s: Option<string>) {
    s.Some? && s.value != ""
  }

  // ---------------------------------------------------------------------------
  // authenticateJWT
  // ---------------------------------------------------------------------------

  /** `authHeader && authHeader.split(' ')[1]`, kept only when truthy: the
      second space-separated word, whatever the first word is. */
  function BearerToken(header: Option<string>): (r: Option<string>)
    ensures r.Some? ==> r.value != "" && ' ' !in r.value
    ensures r.Some? ==> Truthy(header)
  {
    if !Truthy(header) then None
    else
      var words := Split(header.value, ' ');
      if |words| < 2 || words[1] == "" then None else Some(words[1])
  }

  /** Splitting a string without spaces gives that one word. */
  lemma SplitWithoutSeparator(s: string, sep: char)
    requires sep !in s
    ensures Split(s, sep) == [s]
  {
    assert FirstIndex(s, c => c == sep).None?;
  }

  /** `"<scheme> <token>"` yields the token back, for any one-word scheme
      (the scheme itself is never checked). */
  lemma BearerTokenRoundTrip(scheme: string, t: string)
    requires ' ' !in scheme && ' ' !in t && t != ""
    ensures BearerToken(Some(scheme + " " + t)) == Some(t)
  {
    SplitAtFirstSeparator(scheme, ' ', t);
    SplitWithoutSeparator(t, ' ');
    assert scheme + " " + t == scheme + [' '] + t;
  }

  /** A header that is a single word (such as a bare token) carries no token. */
  lemma OneWordHeaderHasNoToken(h: string)
    requires ' ' !in h
    ensures BearerToken(Some(h)).None?
  {
    SplitWithoutSeparator(h, ' ');
  }

  /** The decision authenticateJWT takes: the user and token to attach, or
      the 401 it answers. */
  function Authenticate(header: Option<string>, verify: Verifier, now: Millis): (r: Result<(AuthUser, string), Outcome>)
    ensures r.Ok? <==> BearerToken(header).Some? && verify(BearerToken(header).value, now).Some?
    ensures r.Ok? ==>
              var (user, t) := r.value;
              && BearerToken(header) == Some(t)
              && verify(t, now) == Some(Claims(user.id, user.require2FA))
    ensures r.Err? ==> r.error.Reject? && r.error.status == 401 && !r.error.requiresTwoFactor
    ensures r.Err? ==> (r.error.message == AuthRequired <==> BearerToken(header).None?)
    ensures BearerToken(header).None? ==> r == Err(Reject(401, AuthRequired, false))
    ensures r.Err? && BearerToken(header).Some? ==> r.error == Reject(401, InvalidToken, false)
  {
    match BearerToken(header)
    case None => Err(Reject(401, AuthRequired, false))
    case Some(t) =>
      match verify(t, now)
      case None => Err(Reject(401, InvalidToken, false))
      case Some(c) => Ok((AuthUser(c.userId, c.require2FA), t))
  }

  /** authenticateJWT: on success `req.user` and `req.token` are set and
      `next` is called; otherwise the request is left as it was. */
  method AuthenticateJwt(req: Request, verify: Verifier, now: Millis) returns (o: Outcome)
    modifies req
    ensures req.clientInfo == old(req.clientInfo)
    ensures Authenticate(req.authorization, verify, now).Err? ==>
              o == Authenticate(req.authorization, verify, now).error
              && req.user == old(req.user) && req.token == old(req.token)
    ensures Authenticate(req.authorization, verify, now).Ok? ==>
              var (user, t) := Authenticate(req.authorization, verify, now).value;
              o == Next && req.user == Some(user) && req.token == Some(t)
  {
    var t := BearerToken(req.authorization);
    if t.None? {
      return Reject(401, AuthRequired, false);
    }
    var payload := verify(t.value, now);
    if payload.None? {
      return Reject(401, InvalidToken, false);
    }
    req.user := Some(AuthUser(payload.value.userId, payload.value.require2FA));
    req.token := Some(t.value);
    o := Next;
  }

  // ---------------------------------------------------------------------------
  // requireFullAuth and validateSession
  // ---------------------------------------------------------------------------

  /** requireFullAuth: 401 without a user, 403 with `requiresTwoFactor` for
      a 2FA-pending user, otherwise `next`. */
  function RequireFullAuth(user: Option<AuthUser>): (r: Outcome)
    ensures r == Next <==> user.Some? && !user.value.require2FA
    ensures user.None? ==> r == Reject(401, AuthRequired, false)
    ensures user.Some? && user.value.require2FA ==> r == Reject(403, TwoFactorRequired, true)
  {
    if user.None? then Reject(401, AuthRequired, false)
    else if user.value.require2FA then Reject(403, TwoFactorRequired, true)
    else Next
  }

  /** validateSession: passes only when the request carries a user and a
      token and some unexpired stored session has that token. */
  function ValidateSession(user: Option<AuthUser>, token: Option<string>, sessions: seq<Session>, now: Millis): (r: Outcome)
    ensures r == Next <==>
              && user.Some? && Truthy(token)
              && exists s :: s in sessions && s.token == token.value && s.expiresAt > now
    ensures r != Next ==> r.Reject? && r.status == 401 && !r.requiresTwoFactor
    ensures user.None? || !Truthy(token) ==> r == Reject(401, AuthRequired, false)
    ensures user.Some? && Truthy(token) && r != Next ==> r == Reject(401, SessionInvalid, false)
  {
    if user.None? || !Truthy(token) then Reject(401, AuthRequired, false)
    else if SessionByToken(sessions, token.value, now).None? then Reject(401, SessionInvalid, false)
    else Next
  }

  /** `authenticateJWT, requireFullAuth, validateSession` in a row on a fresh
      request: the first rejection, or `next` from all three. */
  function GuardChain(header: Option<string>, verify: Verifier, sessions: seq<Session>, now: Millis): Outcome {
    match Authenticate(header, verify, now)
    case Err(o) => o
    case Ok((user, t)) =>
      var full := RequireFullAuth(Some(user));
      if full != Next then full else ValidateSession(Some(user), Some(t), sessions, now)
  }

  /** Exactly the bearer tokens that verify to a payload without
      `require2FA` and that an unexpired session holds reach a protected
      handler. */
  lemma GuardChainAdmits(header: Option<string>, verify: Verifier, sessions: seq<Session>, now: Millis)
    ensures GuardChain(header, verify, sessions, now) == Next <==>
              && BearerToken(header).Some?
              && var t := BearerToken(header).value;
              && verify(t, now).Some? && !verify(t, now).value.require2FA
              && exists s :: s in sessions && s.token == t && s.expiresAt > now
  {
  }

  /** Tokens verify to the claims they were issued with, or not at all. */
  ghost predicate Faithful(issue: Issuer, verify: Verifier) {
    forall c, ttl, t0, now :: verify(issue(c, ttl, t0), now) == None || verify(issue(c, ttl, t0), now) == Some(c)
  }

  /** A temp token (issued with `require2FA`) presented as a bearer token
      never gets past authenticateJWT followed by requireFullAuth. */
  lemma TempTokenNeverPasses(scheme: string, uid: int, ttl: int, issuedAt: Millis, now: Millis,
                             issue: Issuer, verify: Verifier, sessions: seq<Session>)
    requires Faithful(issue, verify)
    requires ' ' !in scheme && ' ' !in issue(Claims(uid, true), ttl, issuedAt) && issue(Claims(uid, true), ttl, issuedAt) != ""
    ensures var header := Some(scheme + " " + issue(Claims(uid, true), ttl, issuedAt));
            && (Authenticate(header, verify, now).Err?
                || RequireFullAuth(Some(Authenticate(header, verify, now).value.0)) == Reject(403, TwoFactorRequired, true))
            && GuardChain(header, verify, sessions, now) != Next
  {
    var t := issue(Claims(uid, true), ttl, issuedAt);
    BearerTokenRoundTrip(scheme, t);
    assert verify(t, now) == None || verify(t, now) == Some(Claims(uid, true));
  }

  /** A full token (issued without `require2FA`) whose session is live
      passes the whole chain unless it has expired as a JWT. */
  lemma FullTokenPasses(scheme: string, uid: int, ttl: int, issuedAt: Millis, now: Millis,
                        issue: Issuer, verify: Verifier, sessions: seq<Session>)
    requires Faithful(issue, verify)
    requires ' ' !in scheme && ' ' !in issue(Claims(uid, false), ttl, issuedAt) && issue(Claims(uid, false), ttl, issuedAt) != ""
    requires verify(issue(Claims(uid, false), ttl, issuedAt), now).Some?
    requires SessionByToken(sessions, issue(Claims(uid, false), ttl, issuedAt), now).Some?
    ensures GuardChain(Some(scheme + " " + issue(Claims(uid, false), ttl, issuedAt)), verify, sessions, now) == Next
  {
    var t := issue(Claims(uid, false), ttl, issuedAt);
    BearerTokenRoundTrip(scheme, t);
    assert verify(t, now) == Some(Claims(uid, false));
  }

  // ---------------------------------------------------------------------------
  // trackClientInfo
  // ---------------------------------------------------------------------------

  /** `req.ip || req.headers['x-forwarded-for'] || req.socket.remoteAddress
      || 'unknown'`: a list header is truthy even when empty. */
  function ChosenAddress(ip: Option<string>, forwardedFor: HeaderValue, remote: Option<string>): (r: HeaderValue)
    ensures r != Absent
    ensures Truthy(ip) ==> r == Single(ip.value)
  {
    if Truthy(ip) then Single(ip.value)
    else if forwardedFor.Single? && forwardedFor.value != "" then forwardedFor
    else if forwardedFor.Multi? then forwardedFor
    else if Truthy(remote) then Single(remote.value)
    else Single("unknown")
  }

  /** The stored ip: a string as it is, a list's first element (none for an
      empty list). */
  function ClientIp(ip: Option<string>, forwardedFor: HeaderValue, remote: Option<string>): (r: Option<string>)
    ensures r.None? <==> !Truthy(ip) && forwardedFor == Multi([])
    ensures Truthy(ip) ==> r == ip
    ensures !Truthy(ip) && forwardedFor.Single? && forwardedFor.value != "" ==> r == Some(forwardedFor.value)
    ensures !Truthy(ip) && forwardedFor.Multi? && |forwardedFor.values| > 0 ==> r == Some(forwardedFor.values[0])
    ensures !Truthy(ip) && (forwardedFor == Absent || forwardedFor == Single("")) ==>
              r == (if Truthy(remote) then remote else Some("unknown"))
  {
    match ChosenAddress(ip, forwardedFor, remote)
    case Single(s) => Some(s)
    case Multi(vs) => if |vs| > 0 then Some(vs[0]) else None
    case Absent => Some("unknown")
  }

  /** The client record trackClientInfo attaches; location and timezone
      would need a geolocation service and are always 'Unknown'. */
  function TrackedClient(ip: Option<string>, forwardedFor: HeaderValue, remote: Option<string>,
                         userAgent: Option<string>): (r: ClientInfo)
    ensures r.location == Some(Unknown) && r.timezone == Some(Unknown)
    ensures r.userAgent == (if Truthy(userAgent) then userAgent else Some("unknown"))
    ensures r.ip == ClientIp(ip, forwardedFor, remote)
  {
    ClientInfo(ClientIp(ip, forwardedFor, remote),
               Some(if Truthy(userAgent) then userAgent.value else "unknown"),
               Some(Unknown), Some(Unknown))
  }

  /** trackClientInfo: sets `req.clientInfo` and nothing else. */
  method TrackClientInfo(req: Request) returns (o: Outcome)
    modifies req
    ensures o == Next
    ensures req.clientInfo == Some(TrackedClient(req.ip, req.forwardedFor, req.remoteAddress, req.userAgentHeader))
    ensures req.user == old(req.user) && req.token == old(req.token)
  {
    var address := ClientIp(req.ip, req.forwardedFor, req.remoteAddress);
    var agent := if Truthy(req.userAgentHeader) then req.userAgentHeader.value else "unknown";
    req.clientInfo := Some(ClientInfo(address, Some(agent), Some(Unknown), Some(Unknown)));
    o := Next;
  }
}
