/** What audience a token is minted for (tokens.py:41-45; services.py:291, 587): never one outside the
    allow-list and the default, and the one asked for at sign-in whenever that is allowed. */
module AudienceClamp {
  import opened Settings
  import opened Tables
  import opened SignIn
  import opened Accounts
  import opened Machine
  import opened Invariants
  import opened Shapes

  // --- Never an audience outside the list -------------------------------------

  predicate Mintable(cfg: Settings, audience: string) {
    audience in cfg.allowedAudiences || audience == cfg.defaultAudience
  }

  lemma GrantIsMintable(cfg: Settings, s: Store, r: Request)
    requires Rooted(cfg, s)
    ensures var o := Handle(cfg, s, r).1; o.Granted? ==> Mintable(cfg, o.access.aud)
  {
    HandleShaped(cfg, s, r);
  }

  ghost predicate AllMintable(cfg: Settings, outcomes: seq<Outcome>) {
    forall o | o in outcomes && o.Granted? :: Mintable(cfg, o.access.aud)
  }

  /** Every access token of every run is for an allowed audience or the default. */
  lemma {:induction false} MintedWithinTheList(cfg: Settings, s: Store, es: seq<Event>)
    requires Linked(cfg, s)
    ensures AllMintable(cfg, Outcomes(cfg, s, es))
    decreases |es|
  {
    if es != [] {
      TickKeeps(cfg, s, es[0].elapsed);
      GrantIsMintable(cfg, Tick(s, es[0].elapsed), es[0].request);
      StepKeeps(cfg, s, es[0]);
      MintedWithinTheList(cfg, Step(cfg, s, es[0]).0, es[1..]);
    }
  }

  // --- The audience asked for -------------------------------------------------

  /** `audience` is what a sign-in that asked for `requested` gets. */
  predicate Serves(cfg: Settings, requested: string, audience: string) {
    && (requested != "" && requested in cfg.allowedAudiences ==> audience == requested)
    && (requested == "" || requested !in cfg.allowedAudiences ==> audience == cfg.defaultAudience)
  }

  /** The challenge will sign `c` in for `audience`. */
  ghost predicate ChallengeFor(s: Store, ch: ChallengeId, c: CredentialId, audience: string) {
    ch in s.challenges && s.challenges[ch].credential == c && s.challenges[ch].audience == audience
  }

  lemma StartIsFor(cfg: Settings, s: Store, c: CredentialId, requested: string, code: Secret, delivered: bool)
    ensures var t := StartChallenge(cfg, s, c, requested, code, delivered).0;
      s.next in t.challenges && t.challenges[s.next].credential == c
      && Serves(cfg, requested, t.challenges[s.next].audience)
  {
  }

  lemma StartKeepsFor(cfg: Settings, s: Store, c: CredentialId, requested: string, code: Secret, delivered: bool,
                      ch: ChallengeId, d: CredentialId, audience: string)
    requires ChallengeFor(s, ch, d, audience) && ch != s.next
    ensures ChallengeFor(StartChallenge(cfg, s, c, requested, code, delivered).0, ch, d, audience)
  {
  }

  lemma LoginKeepsFor(cfg: Settings, s: Store, r: Request, ch: ChallengeId, c: CredentialId, audience: string)
    requires Drawn(s) && r.DoLogin? && ChallengeFor(s, ch, c, audience)
    ensures ChallengeFor(Handle(cfg, s, r).0, ch, c, audience)
  {
    var s1 := Authenticate(cfg, s, r.credential, r.password).0;
    StartKeepsFor(cfg, s1, r.credential, r.audience, r.code, r.delivered, ch, c, audience);
  }

  lemma GoogleKeepsFor(cfg: Settings, s: Store, r: Request, ch: ChallengeId, c: CredentialId, audience: string)
    requires Drawn(s) && r.DoGoogleCallback? && ChallengeFor(s, ch, c, audience)
    ensures ChallengeFor(Handle(cfg, s, r).0, ch, c, audience)
  {
    var s1 := ConsumeState(s, r.state).0;
    if r.answer.Identity? {
      var (s2, id) := UpsertGoogle(s1, r.answer.credential);
      StartKeepsFor(cfg, s2, id, cfg.defaultAudience, r.code, r.delivered, ch, c, audience);
    }
  }

  lemma VerifyKeepsFor(cfg: Settings, s: Store, r: Request, ch: ChallengeId, c: CredentialId, audience: string)
    requires r.DoVerify? && ChallengeFor(s, ch, c, audience)
    ensures ChallengeFor(Handle(cfg, s, r).0, ch, c, audience)
  {
    if Answers(s, r.challenge, r.code) {
      SignInShape(cfg, s, r.challenge, r.code);
    } else {
      VerifyAnswers(cfg, s, r.challenge, r.code);
    }
  }

  lemma OthersKeepFor(cfg: Settings, s: Store, r: Request, ch: ChallengeId, c: CredentialId, audience: string)
    requires ChallengeFor(s, ch, c, audience)
    requires !r.DoLogin? && !r.DoGoogleCallback? && !r.DoVerify? && !r.DoRefresh?
    ensures ChallengeFor(Handle(cfg, s, r).0, ch, c, audience)
  {
  }

  lemma RequestKeepsFor(cfg: Settings, s: Store, r: Request, ch: ChallengeId, c: CredentialId, audience: string)
    requires Drawn(s) && ChallengeFor(s, ch, c, audience)
    ensures ChallengeFor(Handle(cfg, s, r).0, ch, c, audience)
  {
    match r {
      case DoLogin(_, _, _, _, _) => LoginKeepsFor(cfg, s, r, ch, c, audience);
      case DoGoogleCallback(_, _, _, _) => GoogleKeepsFor(cfg, s, r, ch, c, audience);
      case DoVerify(_, _) => VerifyKeepsFor(cfg, s, r, ch, c, audience);
      case DoRefresh(raw) => RotateShape(cfg, s, raw);
      case _ => OthersKeepFor(cfg, s, r, ch, c, audience);
    }
  }

  lemma {:induction false} ChallengeStaysFor(cfg: Settings, s: Store, es: seq<Event>,
                                             ch: ChallengeId, c: CredentialId, audience: string)
    requires Linked(cfg, s) && ChallengeFor(s, ch, c, audience)
    ensures ChallengeFor(Run(cfg, s, es), ch, c, audience)
    decreases |es|
  {
    if es != [] {
      TickKeeps(cfg, s, es[0].elapsed);
      RequestKeepsFor(cfg, Tick(s, es[0].elapsed), es[0].request, ch, c, audience);
      StepKeeps(cfg, s, es[0]);
      ChallengeStaysFor(cfg, Step(cfg, s, es[0]).0, es[1..], ch, c, audience);
    }
  }

  /** Answering a challenge mints for its holder, and for its audience if that may be minted. */
  lemma AnswerMints(cfg: Settings, s: Store, ch: ChallengeId, code: Secret, c: CredentialId, audience: string,
                    requested: string)
    requires Answers(s, ch, code) && ChallengeFor(s, ch, c, audience) && Serves(cfg, requested, audience)
    ensures var o := VerifyChallenge(cfg, s, ch, code).1; o.Granted? && o.access.sub == c && o.access.aud == audience
  {
    SignInShape(cfg, s, ch, code);
  }

  /** Whatever happens between the two factors, the access token at the end of a sign-in is for who
      logged in, and for the audience they asked for if it is allowed, for the default otherwise. */
  lemma {:induction false} SignInServesTheRequest(cfg: Settings, s: Store, e: Event, es: seq<Event>, later: Event)
    requires Linked(cfg, s) && e.request.DoLogin? && Step(cfg, s, e).1.ChallengeSent?
    requires later.request.DoVerify? && later.request.challenge == Step(cfg, s, e).1.challenge
    ensures var o := Step(cfg, Run(cfg, Step(cfg, s, e).0, es), later).1;
      o.Granted? ==> o.access.sub == e.request.credential && Serves(cfg, e.request.audience, o.access.aud)
  {
    var s1, r, t := Tick(s, e.elapsed), e.request, Step(cfg, s, e).0;
    TickKeeps(cfg, s, e.elapsed);
    StepKeeps(cfg, s, e);
    LoginIsFor(cfg, s1, r);
    var ch := Step(cfg, s, e).1.challenge;
    var audience := t.challenges[ch].audience;
    ChallengeStaysFor(cfg, t, es, ch, r.credential, audience);
    var u := Tick(Run(cfg, t, es), later.elapsed);
    VerifyAnswers(cfg, u, ch, later.request.code);
    if Answers(u, ch, later.request.code) {
      AnswerMints(cfg, u, ch, later.request.code, r.credential, audience, r.audience);
    }
  }

  lemma LoginIsFor(cfg: Settings, s: Store, r: Request)
    requires Drawn(s) && r.DoLogin? && Handle(cfg, s, r).1.ChallengeSent?
    ensures var (t, o) := Handle(cfg, s, r);
      o.challenge in t.challenges && ChallengeFor(t, o.challenge, r.credential, t.challenges[o.challenge].audience)
      && Serves(cfg, r.audience, t.challenges[o.challenge].audience)
  {
    StartIsFor(cfg, Authenticate(cfg, s, r.credential, r.password).0, r.credential, r.audience, r.code, r.delivered);
  }

  /** A Google sign-in is always for the default. */
  lemma {:induction false} GoogleServesTheDefault(cfg: Settings, s: Store, e: Event, es: seq<Event>, later: Event)
    requires Linked(cfg, s) && e.request.DoGoogleCallback? && Step(cfg, s, e).1.ChallengeSent?
    requires later.request.DoVerify? && later.request.challenge == Step(cfg, s, e).1.challenge
    ensures var o := Step(cfg, Run(cfg, Step(cfg, s, e).0, es), later).1;
      o.Granted? ==> o.access.aud == cfg.defaultAudience
  {
    var s1, r, t := Tick(s, e.elapsed), e.request, Step(cfg, s, e).0;
    StepKeeps(cfg, s, e);
    GoogleIsFor(cfg, s1, r);
    var ch := Step(cfg, s, e).1.challenge;
    var c := t.challenges[ch].credential;
    ChallengeStaysFor(cfg, t, es, ch, c, cfg.defaultAudience);
    var u := Tick(Run(cfg, t, es), later.elapsed);
    VerifyAnswers(cfg, u, ch, later.request.code);
    if Answers(u, ch, later.request.code) {
      AnswerMints(cfg, u, ch, later.request.code, c, cfg.defaultAudience, cfg.defaultAudience);
    }
  }

  lemma GoogleIsFor(cfg: Settings, s: Store, r: Request)
    requires r.DoGoogleCallback? && Handle(cfg, s, r).1.ChallengeSent?
    ensures var (t, o) := Handle(cfg, s, r);
      o.challenge in t.challenges && t.challenges[o.challenge].audience == cfg.defaultAudience
  {
    var (s2, id) := UpsertGoogle(ConsumeState(s, r.state).0, r.answer.credential);
    StartIsFor(cfg, s2, id, cfg.defaultAudience, r.code, r.delivered);
  }
}
