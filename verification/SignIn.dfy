/** Passwords, emailed codes and the shared lockout (services.py:211-461). */
module SignIn {
  import opened Options
  import opened Settings
  import opened Tables
  import opened Sessions

  /** One more wrong guess, a password or a code: the counter wraps into a lock. */
  function CountFailure(cfg: Settings, c: Credential, now: int): Credential {
    if c.failedAttempts + 1 >= cfg.maxFailedLogins
    then c.(failedAttempts := 0, lockedUntil := Some(now + cfg.loginLockout))
    else c.(failedAttempts := c.failedAttempts + 1)
  }

  function ClearFailures(c: Credential): Credential {
    c.(failedAttempts := 0, lockedUntil := None)
  }

  /** `authenticate`: `Done` when the password is right, an error otherwise. */
  ghost function Authenticate(cfg: Settings, s: Store, id: CredentialId, password: Secret): (Store, Outcome) {
    if id !in s.credentials then (s, Refused(InvalidCredentials))
    else
      var c := s.credentials[id];
      if Locked(c, s.now) then (s, Refused(AccountLocked))
      else if c.disabled then
        (s, Refused(if c.password == Some(password) then AccountDisabled else InvalidCredentials))
      else if c.password != Some(password) then
        (s.(credentials := s.credentials[id := CountFailure(cfg, c, s.now)]), Refused(InvalidCredentials))
      else
        (s.(credentials := s.credentials[id := ClearFailures(c)]), Done)
  }

  ghost function SupersedeChallenges(challenges: ChallengeTable, id: CredentialId): ChallengeTable {
    map ch | ch in challenges ::
      if challenges[ch].credential == id && !challenges[ch].consumed
      then challenges[ch].(consumed := true) else challenges[ch]
  }

  ghost function StartChallenge(cfg: Settings, s: Store, id: CredentialId, audience: string,
                                code: Secret, delivered: bool): (Store, Outcome)
  {
    var row := Challenge(id, code, cfg.ResolveAudience(audience), s.now + cfg.otpTtl, 0, 1, s.now, !delivered, s.now);
    (s.(next := s.next + 1,
        challenges := SupersedeChallenges(s.challenges, id)[s.next := row]),
     if delivered then ChallengeSent(s.next) else Refused(MailDeliveryFailed))
  }

  /** `POST /v1/login/challenge` (api.py:147-152): the first factor, then the challenge. */
  ghost function Login(cfg: Settings, s: Store, id: CredentialId, password: Secret, audience: string,
                       code: Secret, delivered: bool): (Store, Outcome)
  {
    var (s1, o) := Authenticate(cfg, s, id, password);
    if o.Refused? then (s1, o) else StartChallenge(cfg, s1, id, audience, code, delivered)
  }

  ghost function ResendChallenge(cfg: Settings, s: Store, ch: ChallengeId, code: Secret, delivered: bool)
    : (Store, Outcome)
  {
    if ch !in s.challenges || s.challenges[ch].consumed then (s, Refused(InvalidChallenge))
    else
      var x := s.challenges[ch];
      if s.now - x.createdAt > cfg.otpChallengeMaxAge then (s, Refused(InvalidChallenge))
      else if s.now - x.lastSentAt < cfg.otpResendCooldown then (s, Refused(ResendTooSoon))
      else if x.sends >= cfg.otpMaxSends then (s, Refused(ResendTooSoon))
      else if x.credential !in s.credentials || s.credentials[x.credential].disabled then
        (s, Refused(AccountDisabled))
      else
        (s.(challenges := s.challenges[ch := x.(code := code, expiresAt := s.now + cfg.otpTtl,
                                                attempts := 0, sends := x.sends + 1, lastSentAt := s.now)]),
         if delivered then ChallengeSent(ch) else Refused(MailDeliveryFailed))
  }

  ghost function VerifyChallenge(cfg: Settings, s: Store, ch: ChallengeId, code: Secret): (Store, Outcome) {
    if ch !in s.challenges || s.challenges[ch].consumed || s.challenges[ch].expiresAt < s.now then
      (s, Refused(InvalidChallenge))
    else
      var x := s.challenges[ch];
      if x.credential !in s.credentials then (s, Refused(InvalidChallenge))
      else
        var c := s.credentials[x.credential];
        if c.disabled then (s, Refused(AccountDisabled))
        else if Locked(c, s.now) then (s, Refused(AccountLocked))
        else if code != x.code then
          var burnt := c.failedAttempts + 1 >= cfg.maxFailedLogins || x.attempts + 1 >= cfg.otpMaxAttempts;
          (s.(challenges := s.challenges[ch := x.(attempts := x.attempts + 1, consumed := burnt)],
              credentials := s.credentials[x.credential := CountFailure(cfg, c, s.now)]),
           Refused(InvalidChallenge))
        else
          IssueTokens(cfg, Accepted(s, ch), x.credential, x.audience, None, None, true)
  }

  /** The right code arrived: the challenge is spent and the counter cleared. */
  ghost function Accepted(s: Store, ch: ChallengeId): Store
    requires ch in s.challenges && s.challenges[ch].credential in s.credentials
  {
    var id := s.challenges[ch].credential;
    s.(challenges := s.challenges[ch := s.challenges[ch].(consumed := true)],
       credentials := s.credentials[id := ClearFailures(s.credentials[id])])
  }
}
