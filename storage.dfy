/** MemStorage of server/storage.ts: three insertion-ordered tables (a JS
    `Map` iterates in insertion order, which is ascending id because ids come
    from counters that only grow) and the find/filter queries over them. */
module Storage {
  import opened Common
  import opened Schema

  // ---------------------------------------------------------------------------
  // Table shape: ids positive, below the counter, ascending in iteration order
  // ---------------------------------------------------------------------------

  predicate UsersAscending(users: seq<User>) {
    forall i, j :: 0 <= i < j < |users| ==> users[i].id < users[j].id
  }

  predicate UsersKeyed(users: seq<User>, next: nat) {
    UsersAscending(users) && forall i :: 0 <= i < |users| ==> 1 <= users[i].id < next
  }

  predicate ConnectionsKeyed(conns: seq<SocialConnection>, next: nat) {
    (forall i, j :: 0 <= i < j < |conns| ==> conns[i].id < conns[j].id)
    && forall i :: 0 <= i < |conns| ==> 1 <= conns[i].id < next
  }

  predicate SessionsAscending(sessions: seq<Session>) {
    forall i, j :: 0 <= i < j < |sessions| ==> sessions[i].id < sessions[j].id
  }

  predicate SessionsKeyed(sessions: seq<Session>, next: nat) {
    SessionsAscending(sessions) && forall i :: 0 <= i < |sessions| ==> 1 <= sessions[i].id < next
  }

  function UserKey(u: User): int { u.id }

  function SessionKey(s: Session): int { s.id }

  // ---------------------------------------------------------------------------
  // User queries
  // ---------------------------------------------------------------------------

  function HasUserId(id: int): User -> bool { (u: User) => u.id == id }

  /** getUser: `userStore.get(id)`. */
  function UserById(users: seq<User>, id: int): (r: Option<User>)
    ensures r.Some? ==> r.value in users && r.value.id == id
    ensures r.None? <==> forall u :: u in users ==> u.id != id
  {
    Find(users, HasUserId(id))
  }

  /** Position of the user with this id. */
  function UserIndex(users: seq<User>, id: int): (r: Option<nat>)
    ensures r.Some? ==> r.value < |users| && users[r.value].id == id
    ensures r.None? <==> UserById(users, id).None?
  {
    FirstIndex(users, HasUserId(id))
  }

  /** With ascending ids a stored user is exactly what its id finds. */
  lemma IdFindsUser(users: seq<User>, u: User)
    requires UsersAscending(users) && u in users
    ensures UserIndex(users, u.id).Some? && users[UserIndex(users, u.id).value] == u
    ensures UserById(users, u.id) == Some(u)
  {
    var j :| 0 <= j < |users| && users[j] == u;
    assert UserIndex(users, u.id).Some?;
    var i := UserIndex(users, u.id).value;
    assert users[i].id == users[j].id;
  }

  /** Case-insensitive equality of emails and usernames. */
  predicate SameName(a: string, b: string) {
    Lower(a) == Lower(b)
  }

  function EmailMatches(email: string): User -> bool { (u: User) => SameName(u.email, email) }

  function UsernameMatches(username: string): User -> bool { (u: User) => SameName(u.username, username) }

  /** getUserByEmail: the first stored user whose lower-cased email equals
      the lower-cased argument. */
  function UserByEmail(users: seq<User>, email: string): (r: Option<User>)
    ensures r.Some? ==> r.value in users && SameName(r.value.email, email)
    ensures r.None? <==> forall u :: u in users ==> !SameName(u.email, email)
  {
    Find(users, EmailMatches(email))
  }

  /** getUserByUsername, likewise on the username. */
  function UserByUsername(users: seq<User>, username: string): (r: Option<User>)
    ensures r.Some? ==> r.value in users && SameName(r.value.username, username)
    ensures r.None? <==> forall u :: u in users ==> !SameName(u.username, username)
  {
    Find(users, UsernameMatches(username))
  }

  /** In a table with ascending ids the user found by email or username is
      the matching user with the lowest id. */
  lemma LookupsReturnLowestId(users: seq<User>, email: string, username: string)
    requires UsersAscending(users)
    ensures UserByEmail(users, email).Some? ==>
              forall u :: u in users && SameName(u.email, email) ==> UserByEmail(users, email).value.id <= u.id
    ensures UserByUsername(users, username).Some? ==>
              forall u :: u in users && SameName(u.username, username) ==> UserByUsername(users, username).value.id <= u.id
  {
    FindHasLeastKey(users, EmailMatches(email), UserKey);
    FindHasLeastKey(users, UsernameMatches(username), UserKey);
  }

  function HoldsVerificationToken(token: string): User -> bool {
    (u: User) => u.verificationToken == Some(token)
  }

  /** getUserByVerificationToken: no expiry filter. */
  function UserByVerificationToken(users: seq<User>, token: string): (r: Option<User>)
    ensures r.Some? ==> r.value in users && r.value.verificationToken == Some(token)
    ensures r.None? <==> forall u :: u in users ==> u.verificationToken != Some(token)
  {
    Find(users, HoldsVerificationToken(token))
  }

  /** A reset token is usable while its expiry is set and strictly after now. */
  predicate ResetTokenLive(u: User, token: string, now: Millis) {
    u.resetPasswordToken == Some(token) && u.resetPasswordExpires.Some? && u.resetPasswordExpires.value > now
  }

  function HoldsLiveResetToken(token: string, now: Millis): User -> bool {
    (u: User) => ResetTokenLive(u, token, now)
  }

  /** getUserByResetToken: hides users whose reset expiry is absent or not
      after now. */
  function UserByResetToken(users: seq<User>, token: string, now: Millis): (r: Option<User>)
    ensures r.Some? ==> r.value in users && r.value.resetPasswordToken == Some(token)
    ensures r.Some? ==> r.value.resetPasswordExpires.Some? && r.value.resetPasswordExpires.value > now
    ensures r.None? <==> forall u :: u in users ==> !ResetTokenLive(u, token, now)
  {
    Find(users, HoldsLiveResetToken(token, now))
  }

  // ---------------------------------------------------------------------------
  // Social connection queries
  // ---------------------------------------------------------------------------

  function LinksUserTo(userId: int, provider: Provider): SocialConnection -> bool {
    (c: SocialConnection) => c.userId == userId && c.provider == provider
  }

  /** getSocialConnection(userId, provider). */
  function ConnectionOf(conns: seq<SocialConnection>, userId: int, provider: Provider): (r: Option<SocialConnection>)
    ensures r.Some? ==> r.value in conns && r.value.userId == userId && r.value.provider == provider
    ensures r.None? <==> forall c :: c in conns ==> !(c.userId == userId && c.provider == provider)
  {
    Find(conns, LinksUserTo(userId, provider))
  }

  function IsExternalId(provider: Provider, providerId: string): SocialConnection -> bool {
    (c: SocialConnection) => c.provider == provider && c.providerId == providerId
  }

  /** getSocialConnectionByProviderId(provider, providerId). */
  function ConnectionByProviderId(conns: seq<SocialConnection>, provider: Provider, providerId: string): (r: Option<SocialConnection>)
    ensures r.Some? ==> r.value in conns && r.value.provider == provider && r.value.providerId == providerId
    ensures r.None? <==> forall c :: c in conns ==> !(c.provider == provider && c.providerId == providerId)
  {
    Find(conns, IsExternalId(provider, providerId))
  }

  function OwnedBy(userId: int): SocialConnection -> bool { (c: SocialConnection) => c.userId == userId }

  /** getUserSocialConnections: exactly the user's connections, in order. */
  function UserConnections(conns: seq<SocialConnection>, userId: int): (r: seq<SocialConnection>)
    ensures forall c :: c in r <==> c in conns && c.userId == userId
  {
    Filter(conns, OwnedBy(userId))
  }

  // ---------------------------------------------------------------------------
  // Session queries
  // ---------------------------------------------------------------------------

  function HasSessionId(id: int): Session -> bool { (s: Session) => s.id == id }

  /** getSession: `sessionStore.get(id)`, expired or not. */
  function SessionById(sessions: seq<Session>, id: int): (r: Option<Session>)
    ensures r.Some? ==> r.value in sessions && r.value.id == id
    ensures r.None? <==> forall s :: s in sessions ==> s.id != id
  {
    Find(sessions, HasSessionId(id))
  }

  function LiveWithToken(token: string, now: Millis): Session -> bool {
    (s: Session) => s.token == token && Live(s, now)
  }

  /** getSessionByToken: the first unexpired session carrying the token. */
  function SessionByToken(sessions: seq<Session>, token: string, now: Millis): (r: Option<Session>)
    ensures r.Some? ==> r.value in sessions && r.value.token == token && r.value.expiresAt > now
    ensures r.None? <==> forall s :: s in sessions ==> !(s.token == token && s.expiresAt > now)
  {
    Find(sessions, LiveWithToken(token, now))
  }

  function LiveOf(userId: int, now: Millis): Session -> bool {
    (s: Session) => s.userId == userId && Live(s, now)
  }

  /** getUserSessions: the user's unexpired sessions, in order. */
  function UserSessions(sessions: seq<Session>, userId: int, now: Millis): (r: seq<Session>)
    ensures forall s :: s in r <==> s in sessions && s.userId == userId && s.expiresAt > now
  {
    Filter(sessions, LiveOf(userId, now))
  }

  function IdNotIn(ids: set<nat>): Session -> bool { (s: Session) => s.id !in ids }

  /** The table after `sessionStore.delete` of every id in `ids`. */
  function WithoutIds(sessions: seq<Session>, ids: set<nat>): (r: seq<Session>)
    ensures forall s :: s in r <==> s in sessions && s.id !in ids
  {
    Filter(sessions, IdNotIn(ids))
  }

  lemma {:induction false} WithoutIdsTwice(sessions: seq<Session>, a: set<nat>, b: set<nat>)
    ensures WithoutIds(WithoutIds(sessions, a), b) == WithoutIds(sessions, a + b)
  {
    if |sessions| > 0 {
      var s := sessions;
      WithoutIdsTwice(s[1..], a, b);
      assert WithoutIds(s, a) == (if s[0].id !in a then [s[0]] else []) + WithoutIds(s[1..], a);
      FilterAppend(if s[0].id !in a then [s[0]] else [], WithoutIds(s[1..], a), IdNotIn(b));
    }
  }

  function NotLiveOf(userId: int, now: Millis): Session -> bool {
    (s: Session) => !(s.userId == userId && Live(s, now))
  }

  /** The ids of a list of sessions. */
  function IdsOf(list: seq<Session>): (r: set<nat>)
    ensures forall t :: t in list ==> t.id in r
    ensures forall x :: x in r ==> exists t :: t in list && t.id == x
  {
    if |list| == 0 then {} else {list[0].id} + IdsOf(list[1..])
  }

  lemma {:induction false} IdsOfSnoc(list: seq<Session>, t: Session)
    ensures IdsOf(list + [t]) == IdsOf(list) + {t.id}
  {
    if |list| > 0 {
      assert (list + [t])[1..] == list[1..] + [t];
      IdsOfSnoc(list[1..], t);
    }
  }

  /** One round of the deletion loop: the next live session is still in the
      table, and deleting it extends the set of removed ids by its id. */
  lemma DeletionStep(table: seq<Session>, live: seq<Session>, k: nat)
    requires SessionsAscending(live) && k < |live|
    requires forall t :: t in live ==> t in table
    ensures live[k] in WithoutIds(table, IdsOf(live[..k]))
    ensures WithoutIds(WithoutIds(table, IdsOf(live[..k])), {live[k].id}) == WithoutIds(table, IdsOf(live[..k + 1]))
  {
    var done := IdsOf(live[..k]);
    forall t | t in live[..k] ensures t.id != live[k].id {
      var j :| 0 <= j < k && live[..k][j] == t;
      assert live[j].id < live[k].id;
    }
    WithoutIdsTwice(table, done, {live[k].id});
    assert live[..k + 1] == live[..k] + [live[k]];
    IdsOfSnoc(live[..k], live[k]);
  }

  /** Removing the ids of a user's live sessions removes exactly those
      sessions, since ids are unique. */
  lemma RemovingLiveIds(sessions: seq<Session>, userId: int, now: Millis)
    requires SessionsAscending(sessions)
    ensures WithoutIds(sessions, IdsOf(UserSessions(sessions, userId, now)))
            == Filter(sessions, NotLiveOf(userId, now))
  {
    var live := UserSessions(sessions, userId, now);
    var ids := IdsOf(live);
    forall x | x in sessions ensures IdNotIn(ids)(x) == NotLiveOf(userId, now)(x) {
      if x.id in ids {
        var y :| y in live && y.id == x.id;
        var a :| 0 <= a < |sessions| && sessions[a] == x;
        var b :| 0 <= b < |sessions| && sessions[b] == y;
        assert a == b;
      }
    }
    FilterCongruent(sessions, IdNotIn(ids), NotLiveOf(userId, now));
  }

  // ---------------------------------------------------------------------------
  // The store
  // ---------------------------------------------------------------------------

  /** Everything the store holds, as one value. */
  datatype Tables = Tables(
    users: seq<User>,
    connections: seq<SocialConnection>,
    sessions: seq<Session>,
    nextUserId: nat,
    nextConnectionId: nat,
    nextSessionId: nat)

  class MemStorage {
    var users: seq<User>
    var connections: seq<SocialConnection>
    var sessions: seq<Session>
    var nextUserId: nat
    var nextConnectionId: nat
    var nextSessionId: nat

    ghost predicate Valid()
      reads this
    {
      1 <= nextUserId && 1 <= nextConnectionId && 1 <= nextSessionId
      && UsersKeyed(users, nextUserId)
      && ConnectionsKeyed(connections, nextConnectionId)
      && SessionsKeyed(sessions, nextSessionId)
    }

    /** The whole state, for "nothing changed" clauses. */
    function State(): Tables
      reads this
    {
      Tables(users, connections, sessions, nextUserId, nextConnectionId, nextSessionId)
    }

    constructor()
      ensures Valid()
      ensures users == [] && connections == [] && sessions == []
      ensures nextUserId == 1 && nextConnectionId == 1 && nextSessionId == 1
    {
      users, connections, sessions := [], [], [];
      nextUserId, nextConnectionId, nextSessionId := 1, 1, 1;
    }

    // ---- users ----

    /** createUser: takes the id from the counter, never checks uniqueness. */
    method CreateUser(data: NewUser, now: Millis) returns (u: User)
      requires Valid()
      modifies this
      ensures Valid()
      ensures u == BuildUser(data, old(nextUserId), now)
      ensures UserById(old(users), u.id).None?
      ensures users == old(users) + [u] && nextUserId == old(nextUserId) + 1
      ensures connections == old(connections) && sessions == old(sessions)
      ensures nextConnectionId == old(nextConnectionId) && nextSessionId == old(nextSessionId)
    {
      u := BuildUser(data, nextUserId, now);
      users := users + [u];
      nextUserId := nextUserId + 1;
    }

    /** updateUser: throws (here `None`) for an unknown id and changes
        nothing; otherwise merges the patch into that user, in place. */
    method UpdateUser(id: int, patch: UserPatch, now: Millis) returns (r: Option<User>)
      requires Valid()
      modifies this
      ensures Valid()
      ensures UserIndex(old(users), id).None? ==> r.None? && users == old(users)
      ensures UserIndex(old(users), id).Some? ==>
                var i := UserIndex(old(users), id).value;
                r == Some(ApplyPatch(old(users)[i], patch, now)) && users == old(users)[i := r.value]
      ensures connections == old(connections) && sessions == old(sessions)
      ensures nextUserId == old(nextUserId) && nextConnectionId == old(nextConnectionId)
      ensures nextSessionId == old(nextSessionId)
    {
      var k := UserIndex(users, id);
      if k.None? {
        return None;
      }
      var updated := ApplyPatch(users[k.value], patch, now);
      users := users[k.value := updated];
      r := Some(updated);
    }

    /** deleteUser: `userStore.delete(id)`. */
    method DeleteUser(id: int) returns (deleted: bool)
      requires Valid()
      modifies this
      ensures Valid()
      ensures deleted <==> UserById(old(users), id).Some?
      ensures users == Filter(old(users), (u: User) => u.id != id)
      ensures connections == old(connections) && sessions == old(sessions)
      ensures nextUserId == old(nextUserId) && nextConnectionId == old(nextConnectionId)
      ensures nextSessionId == old(nextSessionId)
    {
      deleted := UserById(users, id).Some?;
      var p := (u: User) => u.id != id;
      FilterKeepsIncreasing(users, p, UserKey);
      var kept := Filter(users, p);
      forall i | 0 <= i < |kept| ensures 1 <= kept[i].id < nextUserId {
        assert kept[i] in kept;
        var j :| 0 <= j < |users| && users[j] == kept[i];
      }
      users := kept;
    }

    // ---- social connections ----

    /** createSocialConnection: fresh id, no uniqueness check. */
    method CreateSocialConnection(data: NewConnection, now: Millis) returns (c: SocialConnection)
      requires Valid()
      modifies this
      ensures Valid()
      ensures c == SocialConnection(old(nextConnectionId), data.userId, data.provider, data.providerId, data.data, now, now)
      ensures connections == old(connections) + [c] && nextConnectionId == old(nextConnectionId) + 1
      ensures users == old(users) && sessions == old(sessions)
      ensures nextUserId == old(nextUserId) && nextSessionId == old(nextSessionId)
    {
      c := SocialConnection(nextConnectionId, data.userId, data.provider, data.providerId, data.data, now, now);
      connections := connections + [c];
      nextConnectionId := nextConnectionId + 1;
    }

    /** deleteSocialConnection: `socialConnectionStore.delete(id)`. */
    method DeleteSocialConnection(id: int) returns (deleted: bool)
      requires Valid()
      modifies this
      ensures Valid()
      ensures deleted <==> exists c :: c in old(connections) && c.id == id
      ensures connections == Filter(old(connections), (c: SocialConnection) => c.id != id)
      ensures users == old(users) && sessions == old(sessions)
      ensures nextUserId == old(nextUserId) && nextConnectionId == old(nextConnectionId)
      ensures nextSessionId == old(nextSessionId)
    {
      var p := (c: SocialConnection) => c.id != id;
      deleted := Find(connections, (c: SocialConnection) => c.id == id).Some?;
      FilterKeepsIncreasing(connections, p, (c: SocialConnection) => c.id);
      var kept := Filter(connections, p);
      forall i | 0 <= i < |kept| ensures 1 <= kept[i].id < nextConnectionId {
        assert kept[i] in kept;
        var j :| 0 <= j < |connections| && connections[j] == kept[i];
      }
      connections := kept;
    }

    // ---- sessions ----

    /** createSession: fresh id from its own counter. */
    method CreateSession(data: NewSession, now: Millis) returns (s: Session)
      requires Valid()
      modifies this
      ensures Valid()
      ensures s == BuildSession(data, old(nextSessionId), now)
      ensures SessionById(old(sessions), s.id).None?
      ensures sessions == old(sessions) + [s] && nextSessionId == old(nextSessionId) + 1
      ensures users == old(users) && connections == old(connections)
      ensures nextUserId == old(nextUserId) && nextConnectionId == old(nextConnectionId)
    {
      s := BuildSession(data, nextSessionId, now);
      sessions := sessions + [s];
      nextSessionId := nextSessionId + 1;
    }

    /** deleteSession: reports whether the id was present and removes only
        that entry. */
    method DeleteSession(id: nat) returns (deleted: bool)
      requires Valid()
      modifies this
      ensures Valid()
      ensures deleted <==> SessionById(old(sessions), id).Some?
      ensures sessions == WithoutIds(old(sessions), {id})
      ensures users == old(users) && connections == old(connections)
      ensures nextUserId == old(nextUserId) && nextConnectionId == old(nextConnectionId)
      ensures nextSessionId == old(nextSessionId)
    {
      deleted := SessionById(sessions, id).Some?;
      FilterKeepsIncreasing(sessions, IdNotIn({id}), SessionKey);
      sessions := WithoutIds(sessions, {id});
    }

    /** deleteUserSessions: deletes the user's live sessions one by one and
        answers true; the user's expired sessions and everybody else's stay. */
    method DeleteUserSessions(userId: int, now: Millis) returns (success: bool)
      requires Valid()
      modifies this
      ensures Valid()
      ensures success
      ensures sessions == Filter(old(sessions), NotLiveOf(userId, now))
      ensures users == old(users) && connections == old(connections)
      ensures nextUserId == old(nextUserId) && nextConnectionId == old(nextConnectionId)
      ensures nextSessionId == old(nextSessionId)
    {
      var userSessions := UserSessions(sessions, userId, now);
      FilterKeepsIncreasing(old(sessions), LiveOf(userId, now), SessionKey);
      success := true;
      assert userSessions[..0] == [];
      FilterKeepsAll(sessions, IdNotIn({}));
      for k := 0 to |userSessions|
        invariant Valid()
        invariant sessions == WithoutIds(old(sessions), IdsOf(userSessions[..k]))
        invariant success
        invariant users == old(users) && connections == old(connections)
        invariant nextUserId == old(nextUserId) && nextConnectionId == old(nextConnectionId)
        invariant nextSessionId == old(nextSessionId)
      {
        DeletionStep(old(sessions), userSessions, k);
        var deleted := DeleteSession(userSessions[k].id);
        if !deleted {
          success := false;
        }
      }
      assert userSessions[..|userSessions|] == userSessions;
      RemovingLiveIds(old(sessions), userId, now);
    }
  }
}
