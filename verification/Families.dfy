/** Refresh rotation refines a machine with one current token per family
    (services.py:570-751; section 10.4 of RFC 6749). */
module Families {
  import opened Settings
  import opened Tables
  import opened Sessions
  import opened SignIn
  import opened Accounts
  import opened Machine
  import opened Invariants
  import opened Shapes
  import opened Endings
  import NonInterference

  /** A family as its holder sees it: one token works, until it is used, expires or dies. */
  datatype Chain = Chain(owner: CredentialId, current: Secret, deadline: int, dead: bool)

  /** Which family each token ever issued belongs to, and the chain of each family. */
  datatype Ledger = Ledger(family: map<Secret, FamilyId>, chains: map<FamilyId, Chain>)

  datatype Input =
    | Open(f: FamilyId, raw: Secret, owner: CredentialId, deadline: int, superseded: set<FamilyId>)
    | Present(raw: Secret, now: int, successor: Secret, deadline: int)
    | Kill(families: set<FamilyId>)
    | KillOwner(owner: CredentialId)
    | Idle

  datatype Answer = Silent | Unknown | Replayed | Expired | Accepted

  function KillAll(l: Ledger, fs: set<FamilyId>): Ledger {
    l.(chains := map f | f in l.chains :: if f in fs then l.chains[f].(dead := true) else l.chains[f])
  }

  function OwnedBy(l: Ledger, c: CredentialId): set<FamilyId> {
    set f | f in l.chains && l.chains[f].owner == c
  }

  /** The ledger once `child` has taken over from the current token of family `f`. */
  function Succeeded(l: Ledger, f: FamilyId, child: Secret, deadline: int): Ledger
    requires f in l.chains
  {
    Ledger(l.family[child := f], l.chains[f := l.chains[f].(current := child, deadline := deadline)])
  }

  /** The whole abstract machine. */
  function Apply(l: Ledger, i: Input): (Ledger, Answer) {
    match i
    case Idle => (l, Silent)
    case Kill(fs) => (KillAll(l, fs), Silent)
    case KillOwner(c) => (KillAll(l, OwnedBy(l, c)), Silent)
    case Open(f, raw, owner, deadline, superseded) =>
      var k := KillAll(l, superseded);
      (Ledger(k.family[raw := f], k.chains[f := Chain(owner, raw, deadline, false)]), Silent)
    case Present(raw, now, successor, deadline) =>
      if raw !in l.family || l.family[raw] !in l.chains then (l, Unknown)
      else
        var f := l.family[raw];
        var k := l.chains[f];
        if k.dead || raw != k.current then (KillAll(l, {f}), Replayed)
        else if k.deadline < now then (l, Expired)
        else (Succeeded(l, f, successor, deadline), Accepted)
  }

  /** The token rows of `s` say what ledger `l` says. */
  ghost predicate Simulates(s: Store, l: Ledger) {
    && l.family.Keys == s.tokens.Keys
    && (forall raw | raw in s.tokens ::
          && l.family[raw] == s.tokens[raw].family
          && s.tokens[raw].family in l.chains
          && var k := l.chains[s.tokens[raw].family];
          && k.owner == s.tokens[raw].credential
          && k.dead == s.tokens[raw].revoked
          && (raw == k.current) == !s.tokens[raw].rotated)
    && (forall f | f in l.chains ::
          && l.chains[f].current in s.tokens
          && s.tokens[l.chains[f].current].family == f
          && s.tokens[l.chains[f].current].expiresAt == l.chains[f].deadline)
  }

  ghost function LiveFamilies(s: Store, c: CredentialId): set<FamilyId> {
    set sid | sid in s.sessions && LiveFor(s.sessions[sid], c) && s.sessions[sid].family.Some? ::
      s.sessions[sid].family.value
  }

  ghost function SignInInput(cfg: Settings, s: Store, ch: ChallengeId): Input
    requires ch in s.challenges
  {
    var c := s.challenges[ch].credential;
    Open(s.next + 2, s.next + 1, c, s.now + cfg.refreshTokenTtl, if cfg.singleSession then LiveFamilies(s, c) else {})
  }

  /** A request as the abstract machine sees it. */
  ghost function InputOf(cfg: Settings, s: Store, r: Request): Input {
    match r
    case DoVerify(ch, code) =>
      if Answers(s, ch, code) then SignInInput(cfg, s, ch) else Idle
    case DoRefresh(raw) =>
      var o := RotateRefresh(cfg, s, raw).1;
      Present(raw, s.now, if o.Granted? then o.refresh else s.next, s.now + cfg.refreshTokenTtl)
    case DoLogout(raw) => if raw in s.tokens then Kill({s.tokens[raw].family}) else Idle
    case DoLogoutAll(raw) => if raw in s.tokens then KillOwner(s.tokens[raw].credential) else Idle
    case DoConfirmReset(raw, _) => if ResetUsable(s, raw) then KillOwner(s.resets[raw].credential) else Idle
    case DoDisable(c) => if c in s.credentials then KillOwner(c) else Idle
    case _ => Idle
  }

  /** What a refresh answers is what the abstract machine answers. */
  ghost predicate Agrees(r: Request, o: Outcome, a: Answer) {
    r.DoRefresh? ==>
      match a
      case Accepted => o.Granted?
      case Unknown => o == Refused(InvalidRefresh(UnknownToken))
      case Replayed => o == Refused(InvalidRefresh(ReuseDetected))
      case Expired => o == Refused(InvalidRefresh(TokenExpired))
      case Silent => false
  }

  lemma KillSimulates(s: Store, t: Store, l: Ledger, fs: set<FamilyId>)
    requires Simulates(s, l) && TokensOnlyRevoked(s.tokens, t.tokens)
    requires forall raw | raw in s.tokens ::
      t.tokens[raw].revoked == (s.tokens[raw].revoked || s.tokens[raw].family in fs)
    ensures Simulates(t, KillAll(l, fs))
  {
    assert forall raw | raw in s.tokens :: raw in t.tokens;
  }

  lemma SameTokensSimulate(s: Store, t: Store, l: Ledger)
    requires Simulates(s, l) && s.tokens == t.tokens
    ensures Simulates(t, l)
  {
  }

  lemma RevokeAllSimulates(s: Store, c: CredentialId, reason: EndedBy, l: Ledger)
    requires SessionsAgree(s) && Simulates(s, l)
    ensures Simulates(RevokeAll(s, c, reason), KillAll(l, OwnedBy(l, c)))
  {
    var t := RevokeAll(s, c, reason);
    RevokeAllOnlyRevokes(s, c, reason);
    forall raw | raw in s.tokens
      ensures t.tokens[raw].revoked == (s.tokens[raw].revoked || s.tokens[raw].family in OwnedBy(l, c))
    {
      if BacksLiveSession(s.sessions, c, s.tokens[raw].family) {
        NonInterference.LiveFamilyHolder(s, c, raw);
      }
    }
    KillSimulates(s, t, l, OwnedBy(l, c));
  }

  lemma ClearedSimulates(cfg: Settings, s: Store, ch: ChallengeId, l: Ledger)
    requires ch in s.challenges && s.challenges[ch].credential in s.credentials && Simulates(s, l)
    ensures Simulates(Cleared(cfg, s, ch),
      KillAll(l, if cfg.singleSession then LiveFamilies(s, s.challenges[ch].credential) else {}))
  {
    var c := s.challenges[ch].credential;
    var fs := if cfg.singleSession then LiveFamilies(s, c) else {};
    forall raw | raw in s.tokens
      ensures BacksLiveSession(s.sessions, c, s.tokens[raw].family) <==> s.tokens[raw].family in LiveFamilies(s, c)
    {
    }
    KillSimulates(s, Cleared(cfg, s, ch), l, fs);
  }

  lemma OpenSimulates(s: Store, t: Store, l: Ledger, f: FamilyId, raw: Secret, token: RefreshToken)
    requires Simulates(s, l) && raw !in s.tokens
    requires forall x | x in s.tokens :: s.tokens[x].family != f
    requires token.family == f && !token.revoked && !token.rotated
    requires t.tokens == s.tokens[raw := token]
    ensures Simulates(t, Ledger(l.family[raw := f],
                                l.chains[f := Chain(token.credential, raw, token.expiresAt, false)]))
  {
  }

  ghost predicate ClearedDrawn(cfg: Settings, s: Store, ch: ChallengeId)
    requires ch in s.challenges && s.challenges[ch].credential in s.credentials
  {
    forall x | x in Cleared(cfg, s, ch).tokens :: x < s.next && Cleared(cfg, s, ch).tokens[x].family < s.next
  }

  lemma ClearedIsDrawn(cfg: Settings, s: Store, ch: ChallengeId)
    requires Drawn(s) && ch in s.challenges && s.challenges[ch].credential in s.credentials
    ensures ClearedDrawn(cfg, s, ch)
  {
    forall x | x in Cleared(cfg, s, ch).tokens
      ensures x in s.tokens && Cleared(cfg, s, ch).tokens[x].family == s.tokens[x].family
    {
    }
  }

  lemma SignedInSimulates(cfg: Settings, s: Store, ch: ChallengeId, l: Ledger)
    requires Drawn(s) && ch in s.challenges && s.challenges[ch].credential in s.credentials && Simulates(s, l)
    ensures Simulates(SignedIn(cfg, s, ch), Apply(l, SignInInput(cfg, s, ch)).0)
  {
    var i := SignInInput(cfg, s, ch);
    assert Simulates(Cleared(cfg, s, ch), KillAll(l, i.superseded)) by {
      ClearedSimulates(cfg, s, ch, l);
    }
    ClearedIsDrawn(cfg, s, ch);
    SignInApplied(cfg, s, ch, l);
    SessionOpensFamily(cfg, s, ch, KillAll(l, i.superseded));
  }

  lemma SignInApplied(cfg: Settings, s: Store, ch: ChallengeId, l: Ledger)
    requires ch in s.challenges
    ensures var k := KillAll(l, SignInInput(cfg, s, ch).superseded);
      Apply(l, SignInInput(cfg, s, ch)).0 ==
      Ledger(k.family[s.next + 1 := s.next + 2],
             k.chains[s.next + 2 := Chain(s.challenges[ch].credential, s.next + 1,
                                          s.now + cfg.refreshTokenTtl, false)])
  {
  }

  lemma SessionOpensFamily(cfg: Settings, s: Store, ch: ChallengeId, k: Ledger)
    requires ch in s.challenges && s.challenges[ch].credential in s.credentials
    requires Simulates(Cleared(cfg, s, ch), k) && ClearedDrawn(cfg, s, ch)
    ensures Simulates(SignedIn(cfg, s, ch),
      Ledger(k.family[s.next + 1 := s.next + 2],
             k.chains[s.next + 2 := Chain(s.challenges[ch].credential, s.next + 1,
                                          s.now + cfg.refreshTokenTtl, false)]))
  {
    var t := SignedIn(cfg, s, ch);
    OpenSimulates(Cleared(cfg, s, ch), t, k, s.next + 2, s.next + 1, t.tokens[s.next + 1]);
  }

  lemma SignInSimulates(cfg: Settings, s: Store, ch: ChallengeId, code: Secret, l: Ledger)
    requires Drawn(s) && Answers(s, ch, code) && Simulates(s, l)
    ensures Simulates(VerifyChallenge(cfg, s, ch, code).0, Apply(l, InputOf(cfg, s, DoVerify(ch, code))).0)
  {
    SignInShape(cfg, s, ch, code);
    SignedInSimulates(cfg, s, ch, l);
  }

  ghost function ChildToken(cfg: Settings, s: Store, raw: Secret): RefreshToken
    requires raw in s.tokens
  {
    var t := s.tokens[raw];
    RefreshToken(t.credential, t.family, cfg.ResolveAudience(t.audience), s.now + cfg.refreshTokenTtl, false, false)
  }

  /** From `s` to `t` the usable token `raw` was spent and `token` issued in its place. */
  ghost predicate Succession(s: Store, t: Store, raw: Secret, child: Secret, token: RefreshToken) {
    && raw in s.tokens && child !in s.tokens
    && !s.tokens[raw].rotated && !s.tokens[raw].revoked && !token.revoked && !token.rotated
    && t.tokens == s.tokens[raw := s.tokens[raw].(rotated := true)][child := token]
    && token.family == s.tokens[raw].family && token.credential == s.tokens[raw].credential
  }

  lemma SuccessionSimulates(s: Store, t: Store, l: Ledger, raw: Secret, child: Secret, token: RefreshToken)
    requires Simulates(s, l) && Succession(s, t, raw, child, token)
    ensures Simulates(t, Succeeded(l, s.tokens[raw].family, child, token.expiresAt))
  {
  }

  lemma WonIsSuccession(cfg: Settings, s: Store, raw: Secret)
    requires Drawn(s) && Wins(s, raw)
    ensures var (u, claim) := ClaimToken(s, raw);
      Succession(s, Finished(cfg, u, claim), raw, ChildOf(u, claim), ChildToken(cfg, s, raw))
  {
  }

  lemma WonInput(cfg: Settings, s: Store, raw: Secret, l: Ledger)
    requires Drawn(s) && Wins(s, raw) && Simulates(s, l)
    ensures var (u, claim) := ClaimToken(s, raw);
      Apply(l, InputOf(cfg, s, DoRefresh(raw))) ==
      (Succeeded(l, s.tokens[raw].family, ChildOf(u, claim), ChildToken(cfg, s, raw).expiresAt), Accepted)
  {
    RotateShape(cfg, s, raw);
  }

  lemma WonSucceeds(cfg: Settings, s: Store, raw: Secret, l: Ledger)
    requires Drawn(s) && Wins(s, raw) && Simulates(s, l)
    ensures var (u, claim) := ClaimToken(s, raw);
      Simulates(Finished(cfg, u, claim),
                Succeeded(l, s.tokens[raw].family, ChildOf(u, claim), ChildToken(cfg, s, raw).expiresAt))
  {
    var (u, claim) := ClaimToken(s, raw);
    WonIsSuccession(cfg, s, raw);
    SuccessionSimulates(s, Finished(cfg, u, claim), l, raw, ChildOf(u, claim), ChildToken(cfg, s, raw));
  }

  lemma WonSimulates(cfg: Settings, s: Store, raw: Secret, l: Ledger)
    requires Drawn(s) && Wins(s, raw) && Simulates(s, l)
    ensures var (k, a) := Apply(l, InputOf(cfg, s, DoRefresh(raw)));
      a == Accepted && Simulates(RotateRefresh(cfg, s, raw).0, k)
  {
    RotateShape(cfg, s, raw);
    WonInput(cfg, s, raw, l);
    WonSucceeds(cfg, s, raw, l);
  }

  /** In a reachable store a usable current token meets no other obstacle than its deadline: its
      holder is enabled and its session, if any, is live. */
  lemma OnlyTheDeadline(cfg: Settings, s: Store, raw: Secret)
    requires Linked(cfg, s) && raw in s.tokens && !s.tokens[raw].rotated && !s.tokens[raw].revoked
    ensures Wins(s, raw) <==> s.now <= s.tokens[raw].expiresAt
    ensures !Wins(s, raw) ==> ClaimToken(s, raw) == (s, NotClaimed(InvalidRefresh(TokenExpired)))
  {
    var session := SessionOfFamily(s.sessions, s.tokens[raw].family);
    if session.Some? {
      assert TiedTo(s, session.value, raw);
    }
  }

  lemma ReplayKills(s: Store, raw: Secret)
    requires raw in s.tokens && (s.tokens[raw].rotated || s.tokens[raw].revoked)
    ensures var t := ClaimToken(s, raw).0;
      && TokensOnlyRevoked(s.tokens, t.tokens)
      && (forall x | x in s.tokens ::
            t.tokens[x].revoked == (s.tokens[x].revoked || s.tokens[x].family in {s.tokens[raw].family}))
  {
  }

  lemma ReplayInput(cfg: Settings, s: Store, raw: Secret, l: Ledger)
    requires Simulates(s, l) && raw in s.tokens && (s.tokens[raw].rotated || s.tokens[raw].revoked)
    ensures Apply(l, InputOf(cfg, s, DoRefresh(raw))) == (KillAll(l, {s.tokens[raw].family}), Replayed)
  {
  }

  lemma ReplaySimulates(cfg: Settings, s: Store, raw: Secret, l: Ledger)
    requires Simulates(s, l) && raw in s.tokens && (s.tokens[raw].rotated || s.tokens[raw].revoked)
    ensures var (k, a) := Apply(l, InputOf(cfg, s, DoRefresh(raw)));
      a == Replayed && Simulates(ClaimToken(s, raw).0, k)
  {
    ReplayInput(cfg, s, raw, l);
    ReplayKills(s, raw);
    KillSimulates(s, ClaimToken(s, raw).0, l, {s.tokens[raw].family});
  }

  lemma ExpirySimulates(cfg: Settings, s: Store, raw: Secret, l: Ledger)
    requires Simulates(s, l) && raw in s.tokens && !s.tokens[raw].rotated && !s.tokens[raw].revoked
    requires s.tokens[raw].expiresAt < s.now
    ensures Apply(l, InputOf(cfg, s, DoRefresh(raw))) == (l, Expired)
  {
  }

  /** A refused refresh: unknown, replayed or past its deadline, and the machine agrees which. */
  lemma RefusedSimulates(cfg: Settings, s: Store, raw: Secret, l: Ledger)
    requires Linked(cfg, s) && Simulates(s, l) && !Wins(s, raw)
    ensures var (k, a) := Apply(l, InputOf(cfg, s, DoRefresh(raw)));
      && Simulates(ClaimToken(s, raw).0, k)
      && Agrees(DoRefresh(raw), Refused(ClaimToken(s, raw).1.error), a)
  {
    if raw in s.tokens {
      if s.tokens[raw].rotated || s.tokens[raw].revoked {
        ReplaySimulates(cfg, s, raw, l);
      } else {
        OnlyTheDeadline(cfg, s, raw);
        ExpirySimulates(cfg, s, raw, l);
      }
    }
  }

  lemma RotateSimulates(cfg: Settings, s: Store, raw: Secret, l: Ledger)
    requires Linked(cfg, s) && Simulates(s, l)
    ensures var (t, o) := RotateRefresh(cfg, s, raw);
      var (k, a) := Apply(l, InputOf(cfg, s, DoRefresh(raw)));
      Simulates(t, k) && Agrees(DoRefresh(raw), o, a)
  {
    if Wins(s, raw) {
      RotateShape(cfg, s, raw);
      WonSimulates(cfg, s, raw, l);
    } else {
      RefusedSimulates(cfg, s, raw, l);
    }
  }

  lemma LogoutSimulates(cfg: Settings, s: Store, raw: Secret, l: Ledger)
    requires Simulates(s, l)
    ensures Simulates(Logout(s, raw).0, Apply(l, InputOf(cfg, s, DoLogout(raw))).0)
  {
    if raw in s.tokens {
      KillSimulates(s, Logout(s, raw).0, l, {s.tokens[raw].family});
    }
  }

  lemma LogoutAllSimulates(cfg: Settings, s: Store, raw: Secret, l: Ledger)
    requires SessionsAgree(s) && Owned(s) && Simulates(s, l)
    ensures Simulates(LogoutAll(s, raw).0, Apply(l, InputOf(cfg, s, DoLogoutAll(raw))).0)
  {
    if raw in s.tokens {
      var c := s.tokens[raw].credential;
      assert LogoutAll(s, raw).0 == RevokeAll(s, c, LoggedOutEverywhere);
      assert Apply(l, InputOf(cfg, s, DoLogoutAll(raw))).0 == KillAll(l, OwnedBy(l, c));
      RevokeAllSimulates(s, c, LoggedOutEverywhere, l);
    }
  }

  lemma ConfirmSimulates(cfg: Settings, s: Store, raw: Secret, password: Secret, l: Ledger)
    requires SessionsAgree(s) && Simulates(s, l)
    ensures Simulates(ConfirmReset(s, raw, password).0, Apply(l, InputOf(cfg, s, DoConfirmReset(raw, password))).0)
  {
    if ResetUsable(s, raw) {
      SameRowsSimulate(s, Repassworded(s, raw, password), l);
      RevokeAllSimulates(Repassworded(s, raw, password), s.resets[raw].credential, ByPasswordReset, l);
    }
  }

  lemma DisableSimulates(cfg: Settings, s: Store, c: CredentialId, l: Ledger)
    requires SessionsAgree(s) && Simulates(s, l)
    ensures Simulates(Disable(s, c).0, Apply(l, InputOf(cfg, s, DoDisable(c))).0)
  {
    if c in s.credentials {
      var s1 := Deactivated(s, c);
      SameRowsSimulate(s, s1, l);
      RevokeAllSimulates(s1, c, ByDisabling, l);
    }
  }

  lemma SameRowsSimulate(s: Store, t: Store, l: Ledger)
    requires SessionsAgree(s) && Simulates(s, l) && s.tokens == t.tokens && s.sessions == t.sessions
    ensures SessionsAgree(t) && Simulates(t, l)
  {
    forall sid, raw | TiedTo(t, sid, raw)
      ensures t.sessions[sid].credential == t.tokens[raw].credential
      ensures t.sessions[sid].audience == t.tokens[raw].audience
      ensures t.sessions[sid].revoked ==> t.tokens[raw].revoked
    {
      assert TiedTo(s, sid, raw);
    }
  }

  lemma VerifySimulates(cfg: Settings, s: Store, ch: ChallengeId, code: Secret, l: Ledger)
    requires Rooted(cfg, s) && Simulates(s, l)
    ensures Simulates(VerifyChallenge(cfg, s, ch, code).0, Apply(l, InputOf(cfg, s, DoVerify(ch, code))).0)
  {
    VerifyAnswers(cfg, s, ch, code);
    if Answers(s, ch, code) {
      SignInSimulates(cfg, s, ch, code, l);
    } else {
      FailedVerifyRoots(cfg, s, ch, code);
      SameTokensSimulate(s, VerifyChallenge(cfg, s, ch, code).0, l);
    }
  }

  lemma LeavingSimulates(cfg: Settings, s: Store, r: Request, l: Ledger)
    requires Rooted(cfg, s) && LeavesHoldings(r) && Simulates(s, l)
    ensures InputOf(cfg, s, r) == Idle && Simulates(Handle(cfg, s, r).0, l)
  {
    LeavesHoldingsRoots(cfg, s, r);
    SameTokensSimulate(s, Handle(cfg, s, r).0, l);
  }

  lemma HandleSimulates(cfg: Settings, s: Store, r: Request, l: Ledger)
    requires Linked(cfg, s) && Simulates(s, l)
    ensures var (k, a) := Apply(l, InputOf(cfg, s, r));
      Simulates(Handle(cfg, s, r).0, k) && Agrees(r, Handle(cfg, s, r).1, a)
  {
    match r {
      case DoVerify(ch, code) => VerifySimulates(cfg, s, ch, code, l);
      case DoRefresh(raw) => RotateSimulates(cfg, s, raw, l);
      case DoLogout(raw) => LogoutSimulates(cfg, s, raw, l);
      case DoLogoutAll(raw) => LogoutAllSimulates(cfg, s, raw, l);
      case DoConfirmReset(raw, password) => ConfirmSimulates(cfg, s, raw, password, l);
      case DoDisable(c) => DisableSimulates(cfg, s, c, l);
      case _ => LeavingSimulates(cfg, s, r, l);
    }
  }

  /** One request on the tables is one input to the abstract machine. */
  lemma StepSimulates(cfg: Settings, s: Store, e: Event, l: Ledger)
    requires Linked(cfg, s) && Simulates(s, l)
    ensures var (k, a) := Apply(l, InputOf(cfg, Tick(s, e.elapsed), e.request));
      Simulates(Step(cfg, s, e).0, k) && Agrees(e.request, Step(cfg, s, e).1, a)
  {
    TickKeeps(cfg, s, e.elapsed);
    SameTokensSimulate(s, Tick(s, e.elapsed), l);
    HandleSimulates(cfg, Tick(s, e.elapsed), e.request, l);
  }

  ghost function Inputs(cfg: Settings, s: Store, es: seq<Event>): seq<Input>
    decreases |es|
  {
    if es == [] then []
    else [InputOf(cfg, Tick(s, es[0].elapsed), es[0].request)] + Inputs(cfg, Step(cfg, s, es[0]).0, es[1..])
  }

  function ApplyAll(l: Ledger, inputs: seq<Input>): Ledger
    decreases |inputs|
  {
    if inputs == [] then l else ApplyAll(Apply(l, inputs[0]).0, inputs[1..])
  }

  function AnswersOf(l: Ledger, inputs: seq<Input>): seq<Answer>
    decreases |inputs|
  {
    if inputs == [] then [] else [Apply(l, inputs[0]).1] + AnswersOf(Apply(l, inputs[0]).0, inputs[1..])
  }

  /** In every serial run the token rows simulate the abstract machine, answer by answer. */
  lemma {:induction false} RotationRefinesOneCurrentToken(cfg: Settings, s: Store, es: seq<Event>, l: Ledger)
    requires Linked(cfg, s) && Simulates(s, l)
    ensures var inputs := Inputs(cfg, s, es);
      && Simulates(Run(cfg, s, es), ApplyAll(l, inputs))
      && |Outcomes(cfg, s, es)| == |AnswersOf(l, inputs)| == |es|
      && (forall i | 0 <= i < |es| :: Agrees(es[i].request, Outcomes(cfg, s, es)[i], AnswersOf(l, inputs)[i]))
    decreases |es|
  {
    if es != [] {
      StepSimulates(cfg, s, es[0], l);
      StepKeeps(cfg, s, es[0]);
      var t, rest := Step(cfg, s, es[0]).0, es[1..];
      var i0 := InputOf(cfg, Tick(s, es[0].elapsed), es[0].request);
      var k := Apply(l, i0).0;
      RotationRefinesOneCurrentToken(cfg, t, rest, k);
      var inputs := Inputs(cfg, s, es);
      assert inputs[1..] == Inputs(cfg, t, rest);
      forall i | 0 <= i < |es| ensures Agrees(es[i].request, Outcomes(cfg, s, es)[i], AnswersOf(l, inputs)[i]) {
        if i > 0 {
          assert Agrees(rest[i - 1].request, Outcomes(cfg, t, rest)[i - 1], AnswersOf(k, Inputs(cfg, t, rest))[i - 1]);
        }
      }
    }
  }

  lemma EmptyLedger()
    ensures Simulates(EMPTY, Ledger(map[], map[]))
  {
  }

  // --- What the abstract machine promises -----------------------------------

  /** Inputs that name fresh families and fresh tokens, as every request's input does. */
  predicate Fresh(l: Ledger, i: Input) {
    (i.Open? ==> i.f !in l.chains && i.raw !in l.family) && (i.Present? ==> i.successor !in l.family)
  }

  predicate Member(l: Ledger, f: FamilyId, raw: Secret) {
    raw in l.family && l.family[raw] == f
  }

  /** From `l` to `k` chain `f` kept its owner, and if it was dead it is the same chain with the
      same tokens. */
  ghost predicate ChainKept(l: Ledger, k: Ledger, f: FamilyId) {
    && f in l.chains && f in k.chains
    && k.chains[f].owner == l.chains[f].owner
    && (forall raw | Member(l, f, raw) :: Member(k, f, raw))
    && (l.chains[f].dead ==> k.chains[f] == l.chains[f])
    && (l.chains[f].dead ==> forall raw | Member(k, f, raw) :: Member(l, f, raw))
  }

  /** A token of chain `f` that is not its current one. */
  ghost predicate SpentIn(l: Ledger, f: FamilyId, raw: Secret) {
    Member(l, f, raw) && f in l.chains && raw != l.chains[f].current
  }

  lemma ChainStep(l: Ledger, i: Input, f: FamilyId)
    requires Fresh(l, i) && f in l.chains
    ensures ChainKept(l, Apply(l, i).0, f)
    ensures l.chains[f].dead && i.Present? && Member(l, f, i.raw) ==> Apply(l, i).1 == Replayed
  {
  }

  lemma SpentStep(l: Ledger, i: Input, f: FamilyId, raw: Secret)
    requires Fresh(l, i) && SpentIn(l, f, raw)
    ensures SpentIn(Apply(l, i).0, f, raw)
    ensures i.Present? && i.raw == raw ==> Apply(l, i).1 == Replayed && Apply(l, i).0.chains[f].dead
  {
  }

  lemma SignInIsFresh(cfg: Settings, s: Store, ch: ChallengeId, l: Ledger)
    requires Drawn(s) && Simulates(s, l) && ch in s.challenges
    ensures Fresh(l, SignInInput(cfg, s, ch))
  {
    forall f | f in l.chains ensures f < s.next {
      assert s.tokens[l.chains[f].current].family == f;
    }
  }

  lemma RefreshIsFresh(cfg: Settings, s: Store, raw: Secret, l: Ledger)
    requires Drawn(s) && Simulates(s, l)
    ensures Fresh(l, InputOf(cfg, s, DoRefresh(raw)))
  {
    RotateShape(cfg, s, raw);
  }

  lemma InputsAreFresh(cfg: Settings, s: Store, r: Request, l: Ledger)
    requires Drawn(s) && Simulates(s, l)
    ensures Fresh(l, InputOf(cfg, s, r))
  {
    if r.DoVerify? && Answers(s, r.challenge, r.code) {
      SignInIsFresh(cfg, s, r.challenge, l);
      assert InputOf(cfg, s, r) == SignInInput(cfg, s, r.challenge);
    } else if r.DoRefresh? {
      RefreshIsFresh(cfg, s, r.raw, l);
    } else {
      assert !InputOf(cfg, s, r).Open? && !InputOf(cfg, s, r).Present?;
    }
  }

  lemma EventIsFresh(cfg: Settings, s: Store, e: Event, l: Ledger)
    requires Linked(cfg, s) && Simulates(s, l)
    ensures Fresh(l, InputOf(cfg, Tick(s, e.elapsed), e.request))
  {
    TickKeeps(cfg, s, e.elapsed);
    SameTokensSimulate(s, Tick(s, e.elapsed), l);
    InputsAreFresh(cfg, Tick(s, e.elapsed), e.request, l);
  }

  /** Every answer of the machine to a token of chain `f` is that it was replayed. */
  ghost predicate AllReplayed(l: Ledger, inputs: seq<Input>, f: FamilyId)
    decreases |inputs|
  {
    inputs != [] ==>
      && (inputs[0].Present? && Member(l, f, inputs[0].raw) ==> Apply(l, inputs[0]).1 == Replayed)
      && AllReplayed(Apply(l, inputs[0]).0, inputs[1..], f)
  }

  /** Through every run a chain keeps its owner, and a dead one is frozen, keeps its tokens to itself
      and answers each of them as replayed. */
  lemma {:induction false} DeadChainsStayDead(cfg: Settings, s: Store, es: seq<Event>, l: Ledger, f: FamilyId)
    requires Linked(cfg, s) && Simulates(s, l) && f in l.chains
    ensures ChainKept(l, ApplyAll(l, Inputs(cfg, s, es)), f)
    ensures l.chains[f].dead ==> AllReplayed(l, Inputs(cfg, s, es), f)
    decreases |es|
  {
    if es != [] {
      var i0 := InputOf(cfg, Tick(s, es[0].elapsed), es[0].request);
      var k := Apply(l, i0).0;
      EventIsFresh(cfg, s, es[0], l);
      ChainStep(l, i0, f);
      StepSimulates(cfg, s, es[0], l);
      StepKeeps(cfg, s, es[0]);
      DeadChainsStayDead(cfg, Step(cfg, s, es[0]).0, es[1..], k, f);
      assert Inputs(cfg, s, es)[1..] == Inputs(cfg, Step(cfg, s, es[0]).0, es[1..]);
    }
  }

  /** Through every run a spent token is never current again, and presenting it is a replay that
      leaves its chain dead. */
  lemma {:induction false} SpentTokensStaySpent(cfg: Settings, s: Store, es: seq<Event>, l: Ledger,
                                                f: FamilyId, raw: Secret, now: int, successor: Secret)
    requires Linked(cfg, s) && Simulates(s, l) && SpentIn(l, f, raw)
    ensures var k := ApplyAll(l, Inputs(cfg, s, es));
      && SpentIn(k, f, raw)
      && Apply(k, Present(raw, now, successor, now)) == (KillAll(k, {f}), Replayed)
    decreases |es|
  {
    if es != [] {
      var i0 := InputOf(cfg, Tick(s, es[0].elapsed), es[0].request);
      EventIsFresh(cfg, s, es[0], l);
      SpentStep(l, i0, f, raw);
      StepSimulates(cfg, s, es[0], l);
      StepKeeps(cfg, s, es[0]);
      SpentTokensStaySpent(cfg, Step(cfg, s, es[0]).0, es[1..], Apply(l, i0).0, f, raw, now, successor);
      assert Inputs(cfg, s, es)[1..] == Inputs(cfg, Step(cfg, s, es[0]).0, es[1..]);
    }
  }

  /** Replaying a spent token ends its family for good: no later run lets any of its tokens rotate. */
  lemma {:induction false} ReplayIsFinal(cfg: Settings, s: Store, e: Event, es: seq<Event>)
    requires Linked(cfg, s)
    requires e.request.DoRefresh? && e.request.raw in s.tokens
    requires s.tokens[e.request.raw].rotated || s.tokens[e.request.raw].revoked
    ensures var t := Step(cfg, s, e).0; var f := s.tokens[e.request.raw].family;
      && Step(cfg, s, e).1 == Refused(InvalidRefresh(ReuseDetected))
      && ClosedOver(s, t, f) && ClosedOver(t, Run(cfg, t, es), f)
      && (forall raw | raw in Run(cfg, t, es).tokens && Run(cfg, t, es).tokens[raw].family == f ::
            !RotateRefresh(cfg, Run(cfg, t, es), raw).1.Granted?)
  {
    var t, f := Step(cfg, s, e).0, s.tokens[e.request.raw].family;
    StepKeeps(cfg, s, e);
    DeadFamilyStaysDead(cfg, t, es, f);
  }
}
