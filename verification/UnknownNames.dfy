/** Requests that name nothing the service knows. */
module UnknownNames {
  import opened Settings
  import opened Tables
  import opened Machine

  /** The account, challenge, token or state the request names is not there. */
  predicate NamesNothing(s: Store, r: Request) {
    match r
    case DoLogin(c, _, _, _, _) => c !in s.credentials
    case DoVerify(ch, _) => ch !in s.challenges
    case DoResend(ch, _, _) => ch !in s.challenges
    case DoRefresh(raw) => raw !in s.tokens
    case DoLogout(raw) => raw !in s.tokens
    case DoLogoutAll(raw) => raw !in s.tokens
    case DoRequestReset(c) => c !in s.credentials
    case DoConfirmReset(raw, _) => raw !in s.resets
    case DoGoogleCallback(state, _, _, _) => state.None? || state.value !in s.states
    case DoDisable(c) => c !in s.credentials
    case _ => false
  }

  /** What each kind of request answers then: signing out and asking for a reset do not say. */
  function ToStrangers(r: Request): Outcome {
    match r
    case DoLogin(_, _, _, _, _) => Refused(InvalidCredentials)
    case DoVerify(_, _) => Refused(InvalidChallenge)
    case DoResend(_, _, _) => Refused(InvalidChallenge)
    case DoRefresh(_) => Refused(InvalidRefresh(UnknownToken))
    case DoConfirmReset(_, _) => Refused(InvalidResetToken)
    case DoGoogleCallback(_, _, _, _) => Refused(InvalidOAuthState)
    case DoDisable(_) => Refused(NotFound)
    case _ => Done
  }

  /** Such a request changes nothing, and its answer depends on its kind alone. */
  lemma NothingNamedNothingDone(cfg: Settings, s: Store, r: Request)
    requires NamesNothing(s, r)
    ensures Handle(cfg, s, r) == (s, ToStrangers(r))
  {
  }
}
