/** The rows of the six tables (models.py) and the store that holds them.

    Secrets are random and stored as digests; a digest is injective, so a row is keyed here by
    the secret itself. bcrypt verification is equality with the hashed secret. Every identifier
    and secret the service draws comes from one counter, `next`. A credential's address is
    represented by the credential's id: a request that names an unknown address names an id
    that is not in the table. */
module Tables {
  import opened Options

  type CredentialId = nat
  type ChallengeId = nat
  type SessionId = nat
  type FamilyId = nat
  type Secret = nat

  datatype Credential = Credential(
    password: Option<Secret>,
    failedAttempts: int,
    lockedUntil: Option<int>,
    disabled: bool)

  datatype Challenge = Challenge(
    credential: CredentialId,
    code: Secret,
    audience: string,
    expiresAt: int,
    attempts: int,
    sends: int,
    lastSentAt: int,
    consumed: bool,
    createdAt: int)

  datatype EndedBy = Superseded | LoggedOut | LoggedOutEverywhere | ByPasswordReset | ByDisabling

  datatype Session = Session(
    credential: CredentialId,
    audience: string,
    family: Option<FamilyId>,
    revoked: bool,
    reason: Option<EndedBy>,
    revokedAt: Option<int>)

  datatype RefreshToken = RefreshToken(
    credential: CredentialId,
    family: FamilyId,
    audience: string,
    expiresAt: int,
    revoked: bool,
    rotated: bool)

  datatype ResetToken = ResetToken(credential: CredentialId, expiresAt: int, used: bool)

  datatype OAuthState = OAuthState(expiresAt: int, consumed: bool)

  type CredentialTable = map<CredentialId, Credential>
  type ChallengeTable = map<ChallengeId, Challenge>
  type SessionTable = map<SessionId, Session>
  type TokenTable = map<Secret, RefreshToken>
  type ResetTable = map<Secret, ResetToken>
  type StateTable = map<Secret, OAuthState>

  datatype Store = Store(
    now: int,
    next: nat,
    credentials: CredentialTable,
    challenges: ChallengeTable,
    sessions: SessionTable,
    tokens: TokenTable,
    resets: ResetTable,
    states: StateTable)

  /** The claims of a minted access token that name its holder. */
  datatype AccessToken = AccessToken(sub: CredentialId, aud: string, sid: SessionId)

  datatype RefreshRefusal = UnknownToken | ReuseDetected | TokenExpired | SessionEnded

  datatype AuthError =
    | InvalidCredentials
    | AccountLocked
    | AccountDisabled
    | InvalidRefresh(why: RefreshRefusal)
    | InvalidResetToken
    | InvalidChallenge
    | ResendTooSoon
    | MailDeliveryFailed
    | InvalidOAuthState
    | GoogleRejected
    | NotFound

  /** What a request answers. */
  datatype Outcome =
    | Granted(access: AccessToken, refresh: Secret)
    | ChallengeSent(challenge: ChallengeId)
    | Created(credential: CredentialId)
    | Issued(secret: Secret)
    | Done
    | Refused(error: AuthError)

  predicate Locked(c: Credential, now: int) {
    c.lockedUntil.Some? && c.lockedUntil.value > now
  }
}
