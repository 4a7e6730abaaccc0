/** Sign-up, password reset, OAuth state, Google sign-in and disabling (services.py:158-207, 755-924). */
module Accounts {
  import opened Options
  import opened Settings
  import opened Tables
  import opened Sessions
  import opened SignIn

  ghost function AddCredential(s: Store, password: Option<Secret>): (Store, CredentialId) {
    (s.(next := s.next + 1,
        credentials := s.credentials[s.next := Credential(password, 0, None, false)]),
     s.next)
  }

  ghost function SignUp(s: Store, password: Secret): (Store, Outcome) {
    var (s1, id) := AddCredential(s, Some(password));
    (s1, Created(id))
  }

  ghost function RequestReset(cfg: Settings, s: Store, id: CredentialId): (Store, Outcome) {
    if id !in s.credentials then (s, Done)
    else
      (s.(next := s.next + 1,
          resets := s.resets[s.next := ResetToken(id, s.now + cfg.resetTokenTtl, false)]),
       Issued(s.next))
  }

  predicate ResetUsable(s: Store, raw: Secret) {
    raw in s.resets && !s.resets[raw].used && s.now <= s.resets[raw].expiresAt
    && s.resets[raw].credential in s.credentials
  }

  /** The password is replaced and the lockout lifted; the reset token is spent. */
  ghost function Repassworded(s: Store, raw: Secret, password: Secret): Store
    requires ResetUsable(s, raw)
  {
    var id := s.resets[raw].credential;
    s.(credentials := s.credentials[id := ClearFailures(s.credentials[id]).(password := Some(password))],
       resets := s.resets[raw := s.resets[raw].(used := true)])
  }

  ghost function ConfirmReset(s: Store, raw: Secret, password: Secret): (Store, Outcome) {
    if !ResetUsable(s, raw) then (s, Refused(InvalidResetToken))
    else (RevokeAll(Repassworded(s, raw, password), s.resets[raw].credential, ByPasswordReset), Done)
  }

  /** The credential is barred; what it holds is still there. */
  function Deactivated(s: Store, id: CredentialId): Store
    requires id in s.credentials
  {
    s.(credentials := s.credentials[id := s.credentials[id].(disabled := true)])
  }

  ghost function Disable(s: Store, id: CredentialId): (Store, Outcome) {
    if id !in s.credentials then (s, Refused(NotFound))
    else
      (RevokeAll(Deactivated(s, id), id, ByDisabling), Done)
  }

  ghost function IssueState(cfg: Settings, s: Store): (Store, Outcome) {
    (s.(next := s.next + 1, states := s.states[s.next := OAuthState(s.now + cfg.oauthStateTtl, false)]),
     Issued(s.next))
  }

  predicate StateUsable(s: Store, state: Option<Secret>) {
    state.Some? && state.value in s.states && !s.states[state.value].consumed
    && s.states[state.value].expiresAt > s.now
  }

  ghost function ConsumeState(s: Store, state: Option<Secret>): (Store, Outcome) {
    if !StateUsable(s, state) then (s, Refused(InvalidOAuthState))
    else (s.(states := s.states[state.value := s.states[state.value].(consumed := true)]), Done)
  }

  ghost function PurgeStates(s: Store): (Store, Outcome) {
    (s.(states := map x | x in s.states && s.states[x].expiresAt >= s.now :: s.states[x]), Done)
  }

  /** What Google's code exchange answered: a refusal, or an identity that resolves to a
      credential id. An id not in the table is a person seen for the first time. */
  datatype GoogleAnswer = Rejected | Identity(credential: CredentialId)

  ghost function UpsertGoogle(s: Store, id: CredentialId): (Store, CredentialId) {
    if id in s.credentials then (s, id) else AddCredential(s, None)
  }

  /** `GET /v1/google/callback` (api.py:310-337). */
  ghost function GoogleCallback(cfg: Settings, s: Store, state: Option<Secret>, answer: GoogleAnswer,
                                code: Secret, delivered: bool): (Store, Outcome)
  {
    var (s1, o) := ConsumeState(s, state);
    if o.Refused? then (s1, o)
    else if answer.Rejected? then (s1, Refused(GoogleRejected))
    else
      var (s2, id) := UpsertGoogle(s1, answer.credential);
      StartChallenge(cfg, s2, id, cfg.defaultAudience, code, delivered)
  }
}
