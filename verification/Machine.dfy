/** The whole service as a state machine: one request is one step. */
module Machine {
  import opened Options
  import opened Settings
  import opened Tables
  import opened Sessions
  import opened SignIn
  import opened Accounts

  datatype Request =
    | DoSignUp(newPassword: Secret)
    | DoLogin(credential: CredentialId, password: Secret, audience: string, code: Secret, delivered: bool)
    | DoVerify(challenge: ChallengeId, code: Secret)
    | DoResend(challenge: ChallengeId, code: Secret, delivered: bool)
    | DoRefresh(raw: Secret)
    | DoLogout(raw: Secret)
    | DoLogoutAll(raw: Secret)
    | DoRequestReset(credential: CredentialId)
    | DoConfirmReset(raw: Secret, newPassword: Secret)
    | DoGoogleStart
    | DoGoogleCallback(state: Option<Secret>, answer: GoogleAnswer, code: Secret, delivered: bool)
    | DoPurgeStates
    | DoDisable(credential: CredentialId)

  ghost function Handle(cfg: Settings, s: Store, r: Request): (Store, Outcome) {
    match r
    case DoSignUp(password) => SignUp(s, password)
    case DoLogin(id, password, audience, code, delivered) => Login(cfg, s, id, password, audience, code, delivered)
    case DoVerify(ch, code) => VerifyChallenge(cfg, s, ch, code)
    case DoResend(ch, code, delivered) => ResendChallenge(cfg, s, ch, code, delivered)
    case DoRefresh(raw) => RotateRefresh(cfg, s, raw)
    case DoLogout(raw) => Logout(s, raw)
    case DoLogoutAll(raw) => LogoutAll(s, raw)
    case DoRequestReset(id) => RequestReset(cfg, s, id)
    case DoConfirmReset(raw, password) => ConfirmReset(s, raw, password)
    case DoGoogleStart => IssueState(cfg, s)
    case DoGoogleCallback(state, answer, code, delivered) => GoogleCallback(cfg, s, state, answer, code, delivered)
    case DoPurgeStates => PurgeStates(s)
    case DoDisable(id) => Disable(s, id)
  }

  /** A request and the seconds since the one before it, so every sequence of events is a run
      of a clock that never goes back. */
  datatype Event = Event(elapsed: nat, request: Request)

  function Tick(s: Store, elapsed: nat): Store {
    s.(now := s.now + elapsed)
  }

  ghost function Step(cfg: Settings, s: Store, e: Event): (Store, Outcome) {
    Handle(cfg, Tick(s, e.elapsed), e.request)
  }

  ghost function Run(cfg: Settings, s: Store, es: seq<Event>): Store
    decreases |es|
  {
    if es == [] then s else Run(cfg, Step(cfg, s, es[0]).0, es[1..])
  }

  /** The answers of a run, in order. */
  ghost function Outcomes(cfg: Settings, s: Store, es: seq<Event>): seq<Outcome>
    decreases |es|
  {
    if es == [] then [] else [Step(cfg, s, es[0]).1] + Outcomes(cfg, Step(cfg, s, es[0]).0, es[1..])
  }

  /** The store in which request `i` of a run is handled. */
  ghost function At(cfg: Settings, s: Store, es: seq<Event>, i: nat): Store
    requires i < |es|
  {
    Tick(Run(cfg, s, es[..i]), es[i].elapsed)
  }

  lemma {:induction false} AtShift(cfg: Settings, s: Store, es: seq<Event>, i: nat)
    requires i + 1 < |es|
    ensures At(cfg, s, es, i + 1) == At(cfg, Step(cfg, s, es[0]).0, es[1..], i)
  {
    assert es[..i + 1][1..] == es[1..][..i];
  }

  lemma IssueLeavesAlone(cfg: Settings, s: Store, c: CredentialId, requested: string,
                         family: Option<FamilyId>, session: Option<SessionId>, supersede: bool)
    ensures var t := IssueTokens(cfg, s, c, requested, family, session, supersede).0;
      s.next <= t.next && t == s.(next := t.next, sessions := t.sessions, tokens := t.tokens)
  {
  }

  lemma VerifyLeavesAlone(cfg: Settings, s: Store, ch: ChallengeId, code: Secret)
    ensures var t := VerifyChallenge(cfg, s, ch, code).0;
      s.next <= t.next && t.now == s.now && t.resets == s.resets && t.states == s.states
  {
    if ch in s.challenges && s.challenges[ch].credential in s.credentials {
      var x := s.challenges[ch];
      IssueLeavesAlone(cfg, Accepted(s, ch), x.credential, x.audience, None, None, true);
    }
  }

  lemma RotateLeavesAlone(cfg: Settings, s: Store, raw: Secret)
    ensures var t := RotateRefresh(cfg, s, raw).0;
      s.next <= t.next && t.now == s.now && t.resets == s.resets && t.states == s.states
  {
    var (s1, claim) := ClaimToken(s, raw);
    if claim.Claimed? {
      IssueLeavesAlone(cfg, s1, claim.credential, claim.audience, Some(claim.family), claim.session, false);
    }
  }

  /** Only the three OAuth requests touch the states... */
  lemma StatesLeftAlone(cfg: Settings, s: Store, r: Request)
    requires !r.DoGoogleStart? && !r.DoGoogleCallback? && !r.DoPurgeStates?
    ensures Handle(cfg, s, r).0.states == s.states
  {
    match r {
      case DoVerify(ch, code) => VerifyLeavesAlone(cfg, s, ch, code);
      case DoRefresh(raw) => RotateLeavesAlone(cfg, s, raw);
      case _ =>
    }
  }

  /** ...and only the two reset requests the reset tokens. */
  lemma ResetsLeftAlone(cfg: Settings, s: Store, r: Request)
    requires !r.DoRequestReset? && !r.DoConfirmReset?
    ensures Handle(cfg, s, r).0.resets == s.resets
  {
    match r {
      case DoVerify(ch, code) => VerifyLeavesAlone(cfg, s, ch, code);
      case DoRefresh(raw) => RotateLeavesAlone(cfg, s, raw);
      case _ =>
    }
  }

  /** A request is handled at one moment. */
  lemma ClockHolds(cfg: Settings, s: Store, r: Request)
    ensures Handle(cfg, s, r).0.now == s.now
  {
  }

  /** It draws from the supply and puts nothing back. */
  lemma SupplyGrows(cfg: Settings, s: Store, r: Request)
    ensures s.next <= Handle(cfg, s, r).0.next
  {
    match r {
      case DoVerify(ch, code) => VerifyLeavesAlone(cfg, s, ch, code);
      case DoRefresh(raw) => RotateLeavesAlone(cfg, s, raw);
      case _ =>
    }
  }

  lemma {:induction false} ClockGrows(cfg: Settings, s: Store, es: seq<Event>)
    ensures s.now <= Run(cfg, s, es).now
    decreases |es|
  {
    if es != [] {
      ClockHolds(cfg, Tick(s, es[0].elapsed), es[0].request);
      ClockGrows(cfg, Step(cfg, s, es[0]).0, es[1..]);
    }
  }

  const EMPTY: Store := Store(0, 0, map[], map[], map[], map[], map[], map[])
}
