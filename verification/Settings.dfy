/** Runtime constants (settings.py). Nothing here validates them: each theorem states the
    positivity it needs. */
module Settings {
  datatype Settings = Settings(
    defaultAudience: string,
    allowedAudiences: set<string>,
    refreshTokenTtl: int,
    maxFailedLogins: int,
    loginLockout: int,
    resetTokenTtl: int,
    singleSession: bool,
    otpTtl: int,
    otpMaxAttempts: int,
    otpResendCooldown: int,
    otpMaxSends: int,
    otpChallengeMaxAge: int,
    oauthStateTtl: int)
  {
    /** Clamp the requested audience to the allow-list (tokens.py:41-45). */
    function ResolveAudience(requested: string): string {
      if requested != "" && requested in allowedAudiences then requested else defaultAudience
    }
  }
}
