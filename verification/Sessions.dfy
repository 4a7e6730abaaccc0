/** Sessions and refresh tokens: what each handler does to the store (services.py:500-751). */
module Sessions {
  import opened Options
  import opened Settings
  import opened Tables

  ghost function RevokeFamily(tokens: TokenTable, f: FamilyId): TokenTable {
    map raw | raw in tokens ::
      if tokens[raw].family == f then tokens[raw].(revoked := true) else tokens[raw]
  }

  function Ended(x: Session, reason: EndedBy, now: int): Session {
    x.(revoked := true, reason := Some(reason), revokedAt := Some(now))
  }

  predicate LiveFor(x: Session, c: CredentialId) {
    x.credential == c && !x.revoked
  }

  /** Some live session of `c` owns family `f`. */
  ghost predicate BacksLiveSession(sessions: SessionTable, c: CredentialId, f: FamilyId) {
    exists sid :: sid in sessions && LiveFor(sessions[sid], c) && sessions[sid].family == Some(f)
  }

  ghost function EndSessions(sessions: SessionTable, c: CredentialId, reason: EndedBy, now: int): SessionTable {
    map sid | sid in sessions :: if LiveFor(sessions[sid], c) then Ended(sessions[sid], reason, now) else sessions[sid]
  }

  ghost function RevokeBehind(tokens: TokenTable, sessions: SessionTable, c: CredentialId): TokenTable {
    map raw | raw in tokens ::
      if BacksLiveSession(sessions, c, tokens[raw].family) then tokens[raw].(revoked := true) else tokens[raw]
  }

  /** End every live session of `c` and revoke the family behind each. */
  ghost function RevokeSessions(s: Store, c: CredentialId, reason: EndedBy): Store {
    s.(sessions := EndSessions(s.sessions, c, reason, s.now), tokens := RevokeBehind(s.tokens, s.sessions, c))
  }

  ghost function RevokeTokensOf(tokens: TokenTable, c: CredentialId): TokenTable {
    map raw | raw in tokens ::
      if tokens[raw].credential == c then tokens[raw].(revoked := true) else tokens[raw]
  }

  /** Force-logout: every token and every session of `c`. */
  ghost function RevokeAll(s: Store, c: CredentialId, reason: EndedBy): Store {
    RevokeSessions(s.(tokens := RevokeTokensOf(s.tokens, c)), c, reason)
  }

  /** Insert a session row; its family is tied once its first refresh token exists. */
  ghost function AddSession(s: Store, c: CredentialId, audience: string): (Store, SessionId) {
    (s.(next := s.next + 1,
        sessions := s.sessions[s.next := Session(c, audience, None, false, None, None)]),
     s.next)
  }

  ghost function StartSession(cfg: Settings, s: Store, c: CredentialId, audience: string, supersede: bool)
    : (Store, SessionId)
  {
    AddSession(if supersede && cfg.singleSession then RevokeSessions(s, c, Superseded) else s, c, audience)
  }

  /** The tail of `issue_tokens`: mint, insert the refresh token, tie the session to its family. */
  ghost function AddToken(cfg: Settings, s: Store, c: CredentialId, audience: string,
                          family: Option<FamilyId>, sid: SessionId): (Store, Outcome)
  {
    var raw := s.next;
    var f := if family.Some? then family.value else s.next + 1;
    var sessions :=
      if sid in s.sessions && s.sessions[sid].family.None?
      then s.sessions[sid := s.sessions[sid].(family := Some(f))] else s.sessions;
    (s.(next := s.next + 2,
        tokens := s.tokens[raw := RefreshToken(c, f, audience, s.now + cfg.refreshTokenTtl, false, false)],
        sessions := sessions),
     Granted(AccessToken(c, audience, sid), raw))
  }

  ghost function IssueTokens(cfg: Settings, s: Store, c: CredentialId, requested: string,
                             family: Option<FamilyId>, session: Option<SessionId>, supersede: bool)
    : (Store, Outcome)
  {
    var audience := cfg.ResolveAudience(requested);
    var (s1, sid) :=
      if session.None? then StartSession(cfg, s, c, audience, supersede) else (s, session.value);
    AddToken(cfg, s1, c, audience, family, sid)
  }

  /** The session tied to a family. Which one a store with several would answer is left open;
      reachable stores have at most one. */
  ghost function SessionOfFamily(sessions: SessionTable, f: FamilyId): Option<SessionId> {
    if exists sid :: sid in sessions && sessions[sid].family == Some(f)
    then var sid :| sid in sessions && sessions[sid].family == Some(f); Some(sid)
    else None
  }

  /** What the first transaction of `rotate_refresh` leaves for the second. */
  datatype Claim =
    | Claimed(raw: Secret, credential: CredentialId, audience: string, family: FamilyId, session: Option<SessionId>)
    | NotClaimed(error: AuthError)

  /** The first transaction of `rotate_refresh` (services.py:632-680). A refusal after the
      conditional UPDATE raises without a commit, so it leaves the claim undone. */
  ghost function ClaimToken(s: Store, raw: Secret): (Store, Claim) {
    if raw !in s.tokens then (s, NotClaimed(InvalidRefresh(UnknownToken)))
    else
      var t := s.tokens[raw];
      if t.rotated || t.revoked then
        (s.(tokens := RevokeFamily(s.tokens, t.family)), NotClaimed(InvalidRefresh(ReuseDetected)))
      else if t.expiresAt < s.now then (s, NotClaimed(InvalidRefresh(TokenExpired)))
      else if t.credential !in s.credentials || s.credentials[t.credential].disabled then
        (s, NotClaimed(AccountDisabled))
      else
        var session := SessionOfFamily(s.sessions, t.family);
        if session.Some? && s.sessions[session.value].revoked then
          (s, NotClaimed(InvalidRefresh(SessionEnded)))
        else
          (s.(tokens := s.tokens[raw := t.(rotated := true)]),
           Claimed(raw, t.credential, t.audience, t.family, session))
  }

  /** The second transaction of `rotate_refresh` (services.py:681-693). */
  ghost function FinishRotation(cfg: Settings, s: Store, claim: Claim): (Store, Outcome)
    requires claim.Claimed?
  {
    IssueTokens(cfg, s, claim.credential, claim.audience, Some(claim.family), claim.session, false)
  }

  /** `rotate_refresh` when nothing runs between its two transactions. */
  ghost function RotateRefresh(cfg: Settings, s: Store, raw: Secret): (Store, Outcome) {
    var (s1, claim) := ClaimToken(s, raw);
    if claim.NotClaimed? then (s1, Refused(claim.error)) else FinishRotation(cfg, s1, claim)
  }

  ghost function Logout(s: Store, raw: Secret): (Store, Outcome) {
    if raw !in s.tokens then (s, Done)
    else
      var f := s.tokens[raw].family;
      var session := SessionOfFamily(s.sessions, f);
      (s.(tokens := RevokeFamily(s.tokens, f),
          sessions := if session.Some? && !s.sessions[session.value].revoked
                      then s.sessions[session.value := Ended(s.sessions[session.value], LoggedOut, s.now)]
                      else s.sessions),
       Done)
  }

  ghost function LogoutAll(s: Store, raw: Secret): (Store, Outcome) {
    if raw !in s.tokens || s.tokens[raw].credential !in s.credentials then (s, Done)
    else (RevokeAll(s, s.tokens[raw].credential, LoggedOutEverywhere), Done)
  }
}
