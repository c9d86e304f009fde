/** The invariant the account service keeps over the user and connection
    tables, although the store itself checks none of it: emails and
    usernames are unique up to case, an outstanding verification or reset
    token belongs to one user only, 2FA is never on without a secret, and a
    provider account is linked at most once. */
module Accounts {
  import opened Common
  import opened Schema
  import opened Storage

  /** twoFactorEnabled implies a secret to check codes against. */
  predicate WellFormed(u: User) {
    u.twoFactorEnabled ==> u.twoFactorSecret.Some?
  }

  /** Two different users share no key the service finds users by. */
  predicate Distinct(a: User, b: User) {
    && !SameName(a.email, b.email)
    && !SameName(a.username, b.username)
    && !(a.verificationToken.Some? && a.verificationToken == b.verificationToken)
    && !(a.resetPasswordToken.Some? && a.resetPasswordToken == b.resetPasswordToken)
  }

  predicate Consistent(users: seq<User>) {
    && (forall i :: 0 <= i < |users| ==> WellFormed(users[i]))
    && (forall i, j :: 0 <= i < |users| && 0 <= j < |users| && i != j ==> Distinct(users[i], users[j]))
  }

  /** `u` clashes with nobody in `users`. */
  predicate FitsBeside(users: seq<User>, u: User) {
    forall i :: 0 <= i < |users| ==> Distinct(users[i], u)
  }

  /** A provider account (provider, providerId) is linked at most once. */
  predicate LinksUnique(conns: seq<SocialConnection>) {
    forall i, j :: 0 <= i < |conns| && 0 <= j < |conns| && i != j ==>
      !(conns[i].provider == conns[j].provider && conns[i].providerId == conns[j].providerId)
  }

  /** The service invariant over the whole store. */
  predicate ServiceInvariant(t: Tables) {
    Consistent(t.users) && LinksUnique(t.connections)
  }

  /** A random verification token nobody holds yet. */
  predicate VerificationTokenUnused(users: seq<User>, token: string) {
    forall u :: u in users ==> u.verificationToken != Some(token)
  }

  /** A random reset token nobody holds yet, expired or not. */
  predicate ResetTokenUnused(users: seq<User>, token: string) {
    forall u :: u in users ==> u.resetPasswordToken != Some(token)
  }

  lemma DistinctSymmetric(a: User, b: User)
    requires Distinct(a, b)
    ensures Distinct(b, a)
  {
  }

  /** A user whose email and username no lookup finds, and whose tokens
      nobody holds, can be added. */
  lemma FreshKeysFit(users: seq<User>, u: User)
    requires UserByEmail(users, u.email).None? && UserByUsername(users, u.username).None?
    requires u.verificationToken.Some? ==> VerificationTokenUnused(users, u.verificationToken.value)
    requires u.resetPasswordToken.Some? ==> ResetTokenUnused(users, u.resetPasswordToken.value)
    ensures FitsBeside(users, u)
  {
    forall i | 0 <= i < |users| ensures Distinct(users[i], u) {
      assert users[i] in users;
    }
  }

  /** Adding a well-formed user that fits keeps the table consistent. */
  lemma AppendKeepsConsistent(users: seq<User>, u: User)
    requires Consistent(users) && WellFormed(u) && FitsBeside(users, u)
    ensures Consistent(users + [u])
  {
    var t := users + [u];
    forall i, j | 0 <= i < |t| && 0 <= j < |t| && i != j ensures Distinct(t[i], t[j]) {
      if j == |users| {
        assert Distinct(users[i], u);
      } else if i == |users| {
        DistinctSymmetric(users[j], u);
      } else {
        assert Distinct(users[i], users[j]);
      }
    }
  }

  /** Replacing one user by a well-formed record that fits beside the others
      keeps the table consistent. */
  lemma ReplaceKeepsConsistent(users: seq<User>, k: nat, v: User)
    requires Consistent(users) && k < |users| && WellFormed(v)
    requires forall j :: 0 <= j < |users| && j != k ==> Distinct(users[j], v)
    ensures Consistent(users[k := v])
  {
    var t := users[k := v];
    forall i, j | 0 <= i < |t| && 0 <= j < |t| && i != j ensures Distinct(t[i], t[j]) {
      if j == k {
        assert Distinct(users[i], v);
      } else if i == k {
        DistinctSymmetric(users[j], v);
      } else {
        assert Distinct(users[i], users[j]);
      }
    }
  }

  /** An update of user k whose every lookup key is either the one user k
      already had, cleared, or held by nobody else fits beside the others. */
  lemma UpdateKeepsConsistent(users: seq<User>, k: nat, v: User)
    requires Consistent(users) && k < |users| && WellFormed(v)
    requires v.email == users[k].email || UserByEmail(users, v.email).None?
    requires v.username == users[k].username
             || forall j :: 0 <= j < |users| && j != k ==> !SameName(users[j].username, v.username)
    requires || v.verificationToken.None? || v.verificationToken == users[k].verificationToken
             || VerificationTokenUnused(users, v.verificationToken.value)
    requires || v.resetPasswordToken.None? || v.resetPasswordToken == users[k].resetPasswordToken
             || ResetTokenUnused(users, v.resetPasswordToken.value)
    ensures Consistent(users[k := v])
  {
    forall j | 0 <= j < |users| && j != k ensures Distinct(users[j], v) {
      assert Distinct(users[j], users[k]);
      assert users[j] in users;
    }
    ReplaceKeepsConsistent(users, k, v);
  }

  /** In a consistent table at most one user holds a given verification
      token, so clearing it at the holder leaves nobody holding it. */
  lemma ClearedVerificationTokenIsGone(users: seq<User>, k: nat, v: User, token: string)
    requires Consistent(users) && k < |users|
    requires users[k].verificationToken == Some(token) && v.verificationToken.None?
    ensures VerificationTokenUnused(users[k := v], token)
  {
    forall w | w in users[k := v] ensures w.verificationToken != Some(token) {
      var j :| 0 <= j < |users[k := v]| && users[k := v][j] == w;
      if j != k {
        assert Distinct(users[j], users[k]);
      }
    }
  }

  /** Likewise for the reset token. */
  lemma ClearedResetTokenIsGone(users: seq<User>, k: nat, v: User, token: string)
    requires Consistent(users) && k < |users|
    requires users[k].resetPasswordToken == Some(token) && v.resetPasswordToken.None?
    ensures ResetTokenUnused(users[k := v], token)
  {
    forall w | w in users[k := v] ensures w.resetPasswordToken != Some(token) {
      var j :| 0 <= j < |users[k := v]| && users[k := v][j] == w;
      if j != k {
        assert Distinct(users[j], users[k]);
      }
    }
  }

  /** Linking a provider account nobody has linked keeps links unique. */
  lemma LinkKeepsUnique(conns: seq<SocialConnection>, c: SocialConnection)
    requires LinksUnique(conns)
    requires ConnectionByProviderId(conns, c.provider, c.providerId).None?
    ensures LinksUnique(conns + [c])
  {
    var t := conns + [c];
    forall i, j | 0 <= i < |t| && 0 <= j < |t| && i != j
      ensures !(t[i].provider == t[j].provider && t[i].providerId == t[j].providerId)
    {
      if i == |conns| {
        assert t[j] in conns;
      } else if j == |conns| {
        assert t[i] in conns;
      }
    }
  }
}
