/** Login challenge tokens: the time window and the identities; the signature is assumed to be checked. */
module LoginChallenges {
  import opened Wrappers
  import opened TwoFactorTables

  const SECOND: Time := 1_000_000_000
  const VERSION := 2

  datatype Payload = Payload(version: int, jti: Id, user: Id, configuration: Id, issuedAt: int, expiresAt: int)

  datatype Verified = Verified(jti: Id, user: Id, configuration: Id, issuedAt: Time, expiresAt: Time)

  function Issue(jti: Id, user: Id, configuration: Id, now: Time): Option<Payload> {
    if user == "" || configuration == "" then None
    else Some(Payload(VERSION, jti, user, configuration, now / SECOND, (now + 300 * SECOND) / SECOND))
  }

  function VerifyAt(p: Payload, now: Time): Option<Verified> {
    if p.version != VERSION then None
    else if p.jti == "" || p.user == "" || p.configuration == "" then None
    else if now > p.expiresAt * SECOND then None
    else if p.issuedAt * SECOND > now + 60 * SECOND then None
    else Some(Verified(p.jti, p.user, p.configuration, p.issuedAt * SECOND, p.expiresAt * SECOND))
  }

  /**
   A challenge issued at `now` verifies at once, keeps verifying for more than 299 seconds, and stops verifying
   within the 300 seconds the documentation gives it (both ends are cut to whole seconds).
   */
  lemma IssuedChallengeLifetime(jti: Id, user: Id, configuration: Id, now: Time, t: Time)
    requires jti != "" && user != "" && configuration != "" && now <= t
    ensures var p := Issue(jti, user, configuration, now).value;
      && (t <= now + 299 * SECOND ==> VerifyAt(p, t).Some?)
      && (t > now + 300 * SECOND ==> VerifyAt(p, t).None?)
      && (VerifyAt(p, t).Some? <==> t <= p.expiresAt * SECOND)
  {
  }

  /** At any clock, a minute early included, a challenge says what it was issued for, cut to seconds, or nothing. */
  lemma IssuedVerifiesExactly(jti: Id, user: Id, configuration: Id, now: Time, t: Time)
    requires jti != "" && user != "" && configuration != ""
    ensures var p := Issue(jti, user, configuration, now).value; var second := now - now % SECOND;
      VerifyAt(p, t) ==
        if second - 60 * SECOND <= t <= second + 300 * SECOND
        then Some(Verified(jti, user, configuration, second, second + 300 * SECOND)) else None
  {
  }

  /** The row the login handler stores for a token it has just issued and verified. */
  function RowOf(v: Verified): Challenge {
    Challenge(v.user, v.configuration, v.expiresAt, None, v.issuedAt)
  }

  /**
   Token and row expire together: at every later instant the token verifies exactly when the unconsumed row
   it was stored with can be redeemed, for the same user and configuration.
   */
  lemma TokenAndRowAgree(db: Database, jti: Id, user: Id, configuration: Id, issued: Time, t: Time)
    requires jti != "" && user != "" && configuration != "" && issued <= t
    requires var v := VerifyAt(Issue(jti, user, configuration, issued).value, issued);
      v.Some? && jti in db.challenges && db.challenges[jti] == RowOf(v.value)
    ensures VerifyAt(Issue(jti, user, configuration, issued).value, t).Some? <==>
      Consumable(db, jti, user, configuration, t)
  {
  }
}
