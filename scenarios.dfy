/** Consecutive calls of the account service on one store: the
    verification and reset tokens are single-use and logout is idempotent. */
module Scenarios {
  import opened Common
  import opened Schema
  import opened Storage
  import opened Accounts
  import opened AuthService

  /** The same verification link followed twice: once it has been accepted
      (whatever the mail send did) the second attempt finds no such token. */
  method VerifyEmailTwice(store: MemStorage, token: string, now: Millis, mailOk: bool)
    returns (first: Result<Ack, AuthError>, second: Result<Ack, AuthError>)
    requires store.Valid() && ServiceInvariant(store.State())
    modifies store
    ensures store.Valid() && ServiceInvariant(store.State())
    ensures second.Err?
    ensures first == Ok(Ack(VerifiedMessage)) || first == Err(MailFailed) ==> second == Err(InvalidVerificationToken)
  {
    first := VerifyEmail(store, token, now, mailOk);
    second := VerifyEmail(store, token, now, mailOk);
  }

  /** The same reset token used twice: the second use always fails. */
  method ResetPasswordTwice(store: MemStorage, body: ResetBody, digest: string, now: Millis)
    returns (first: Result<Ack, AuthError>, second: Result<Ack, AuthError>)
    requires store.Valid() && ServiceInvariant(store.State())
    modifies store
    ensures store.Valid() && ServiceInvariant(store.State())
    ensures second == Err(InvalidResetToken)
  {
    first := ResetPassword(store, body, digest, now);
    second := ResetPassword(store, body, digest, now);
  }

  /** Logging out twice with a token only one live session holds: the
      second call succeeds and changes nothing. */
  method LogoutTwice(store: MemStorage, token: string, now: Millis) returns (first: bool, second: bool)
    requires store.Valid() && ServiceInvariant(store.State())
    requires TokenHeldOnce(store.sessions, token, now)
    modifies store
    ensures store.Valid() && ServiceInvariant(store.State())
    ensures first && second
    ensures store.State() == old(store.State()).(sessions := store.sessions)
    ensures SessionByToken(old(store.sessions), token, now).None? ==> store.sessions == old(store.sessions)
    ensures SessionByToken(old(store.sessions), token, now).Some? ==>
              store.sessions == WithoutIds(old(store.sessions), {SessionByToken(old(store.sessions), token, now).value.id})
  {
    first := LogoutUser(store, token, now);
    second := LogoutUser(store, token, now);
  }
}
