/** Where sessions come from, and what stays with a session along its rotations. */
module Provenance {
  import opened Options
  import opened Settings
  import opened Tables
  import opened Sessions
  import opened Machine
  import opened Invariants
  import opened Shapes
  import opened Challenges
  import opened FirstFactor

  /** A session is opened by answering a challenge or by adopting an orphan family. */
  datatype Origin = FromChallenge(ch: ChallengeId) | FromOrphan(raw: Secret)

  /** The session a request opens, with its origin. */
  ghost function Opened(cfg: Settings, s: Store, r: Request): map<SessionId, Origin> {
    if SignsIn(s, r) then map[s.next := FromChallenge(r.challenge)]
    else if Rotates(s, r) && ClaimToken(s, r.raw).1.session.None? then map[s.next := FromOrphan(r.raw)]
    else map[]
  }

  ghost function Origins(cfg: Settings, s: Store, es: seq<Event>): map<SessionId, Origin>
    decreases |es|
  {
    if es == [] then map[]
    else Origins(cfg, Step(cfg, s, es[0]).0, es[1..]) + Opened(cfg, Tick(s, es[0].elapsed), es[0].request)
  }

  /** Holder, audience and family of a session are for good. */
  ghost predicate SameIdentity(x: Session, y: Session) {
    y.credential == x.credential && y.audience == x.audience && (x.family.Some? ==> y.family == x.family)
  }

  ghost predicate SessionsFixed(s: Store, t: Store) {
    forall sid | sid in s.sessions :: sid in t.sessions && SameIdentity(s.sessions[sid], t.sessions[sid])
  }

  lemma ShapeFixesSessions(cfg: Settings, s: Store, r: Request, t: Store, o: Outcome)
    requires Rooted(cfg, s) && Shaped(cfg, s, r, t, o)
    ensures SessionsFixed(s, t)
  {
    if SignsIn(s, r) {
      ClearedOnlyRevokes(cfg, s, r.challenge);
    }
  }

  lemma HandleFixesSessions(cfg: Settings, s: Store, r: Request)
    requires Rooted(cfg, s)
    ensures SessionsFixed(s, Handle(cfg, s, r).0)
  {
    HandleShaped(cfg, s, r);
    ShapeFixesSessions(cfg, s, r, Handle(cfg, s, r).0, Handle(cfg, s, r).1);
  }

  lemma {:induction false} RunFixesSessions(cfg: Settings, s: Store, es: seq<Event>)
    requires Linked(cfg, s)
    ensures SessionsFixed(s, Run(cfg, s, es))
    decreases |es|
  {
    if es != [] {
      TickKeeps(cfg, s, es[0].elapsed);
      HandleFixesSessions(cfg, Tick(s, es[0].elapsed), es[0].request);
      StepKeeps(cfg, s, es[0]);
      RunFixesSessions(cfg, Step(cfg, s, es[0]).0, es[1..]);
    }
  }

  /** The session `sid` of `t` is the one its origin explains. */
  ghost predicate Explained(t: Store, sid: SessionId, o: Origin) {
    && sid in t.sessions
    && match o
       case FromChallenge(ch) =>
         && ch in t.challenges && t.challenges[ch].consumed
         && t.challenges[ch].credential == t.sessions[sid].credential
         && t.challenges[ch].audience == t.sessions[sid].audience
       case FromOrphan(raw) =>
         && raw in t.tokens && t.tokens[raw].rotated
         && t.tokens[raw].credential == t.sessions[sid].credential
         && t.tokens[raw].audience == t.sessions[sid].audience
         && Some(t.tokens[raw].family) == t.sessions[sid].family
  }

  /** From `s` to `t` exactly the sessions of `m` were opened, each explained. */
  ghost predicate Opens(s: Store, t: Store, m: map<SessionId, Origin>) {
    && t.sessions.Keys == s.sessions.Keys + m.Keys
    && s.sessions.Keys !! m.Keys
    && (forall sid | sid in m :: Explained(t, sid, m[sid]))
  }

  lemma SignInOpens(cfg: Settings, s: Store, ch: ChallengeId)
    requires Drawn(s) && ch in s.challenges && s.challenges[ch].credential in s.credentials
    requires cfg.ResolveAudience(s.challenges[ch].audience) == s.challenges[ch].audience
    ensures Opens(s, SignedIn(cfg, s, ch), map[s.next := FromChallenge(ch)])
  {
    ClearedOnlyRevokes(cfg, s, ch);
    var t := SignedIn(cfg, s, ch);
    assert t.sessions.Keys == s.sessions.Keys + {s.next};
    assert Explained(t, s.next, FromChallenge(ch));
  }

  lemma AdoptionOpens(cfg: Settings, s: Store, claim: Claim)
    requires Drawn(s) && claim.Claimed? && claim.session.None? && claim.raw in s.tokens
    requires s.tokens[claim.raw] == RefreshToken(claim.credential, claim.family, claim.audience,
                                                 s.tokens[claim.raw].expiresAt, false, true)
    requires cfg.ResolveAudience(claim.audience) == claim.audience
    ensures Opens(s, Finished(cfg, s, claim), map[s.next := FromOrphan(claim.raw)])
  {
    assert Finished(cfg, s, claim).sessions.Keys == s.sessions.Keys + {s.next};
    assert Explained(Finished(cfg, s, claim), s.next, FromOrphan(claim.raw));
  }

  lemma RotationOpens(cfg: Settings, s: Store, raw: Secret)
    requires Rooted(cfg, s) && Wins(s, raw)
    ensures var (u, claim) := ClaimToken(s, raw);
      Opens(s, Finished(cfg, u, claim), if claim.session.None? then map[s.next := FromOrphan(raw)] else map[])
  {
    var (u, claim) := ClaimToken(s, raw);
    assert u == s.(tokens := s.tokens[raw := s.tokens[raw].(rotated := true)]);
    if claim.session.None? {
      AdoptionOpens(cfg, u, claim);
    }
  }

  lemma RevokingOpensNothing(s: Store, t: Store)
    requires OnlyRevokes(s, t)
    ensures Opens(s, t, map[])
  {
  }

  lemma OpenedByShape(cfg: Settings, s: Store, r: Request, t: Store, o: Outcome)
    requires Rooted(cfg, s) && Shaped(cfg, s, r, t, o)
    ensures Opens(s, t, Opened(cfg, s, r))
  {
    if SignsIn(s, r) {
      SignInOpens(cfg, s, r.challenge);
    } else if Rotates(s, r) {
      RotationOpens(cfg, s, r.raw);
    } else {
      RevokingOpensNothing(s, t);
    }
  }

  /** A request's one new session, if it opens one, is explained by the request. */
  lemma OpenedExplained(cfg: Settings, s: Store, r: Request)
    requires Rooted(cfg, s)
    ensures Opens(s, Handle(cfg, s, r).0, Opened(cfg, s, r))
  {
    HandleShaped(cfg, s, r);
    OpenedByShape(cfg, s, r, Handle(cfg, s, r).0, Handle(cfg, s, r).1);
  }

  /** Spent tokens keep their row, but for the revoked flag. */
  ghost predicate TokensFixed(s: Store, t: Store) {
    forall raw | raw in s.tokens ::
      && raw in t.tokens
      && t.tokens[raw].credential == s.tokens[raw].credential
      && t.tokens[raw].audience == s.tokens[raw].audience
      && t.tokens[raw].family == s.tokens[raw].family
      && (s.tokens[raw].rotated ==> t.tokens[raw].rotated)
  }

  lemma ShapeFixesTokens(cfg: Settings, s: Store, r: Request, t: Store, o: Outcome)
    requires Rooted(cfg, s) && Shaped(cfg, s, r, t, o)
    ensures TokensFixed(s, t)
  {
    if SignsIn(s, r) {
      ClearedOnlyRevokes(cfg, s, r.challenge);
    }
  }

  lemma HandleFixesTokens(cfg: Settings, s: Store, r: Request)
    requires Rooted(cfg, s)
    ensures TokensFixed(s, Handle(cfg, s, r).0)
  {
    HandleShaped(cfg, s, r);
    ShapeFixesTokens(cfg, s, r, Handle(cfg, s, r).0, Handle(cfg, s, r).1);
  }

  lemma {:induction false} RunFixesTokens(cfg: Settings, s: Store, es: seq<Event>)
    requires Linked(cfg, s)
    ensures TokensFixed(s, Run(cfg, s, es))
    decreases |es|
  {
    if es != [] {
      TickKeeps(cfg, s, es[0].elapsed);
      HandleFixesTokens(cfg, Tick(s, es[0].elapsed), es[0].request);
      StepKeeps(cfg, s, es[0]);
      RunFixesTokens(cfg, Step(cfg, s, es[0]).0, es[1..]);
    }
  }

  lemma {:induction false} ExplanationLasts(cfg: Settings, s: Store, es: seq<Event>, sid: SessionId, o: Origin)
    requires Sensible(cfg) && Linked(cfg, s) && ChallengesSound(cfg, s) && Explained(s, sid, o)
    requires o.FromOrphan? ==> s.sessions[sid].family.Some?
    ensures Explained(Run(cfg, s, es), sid, o)
  {
    RunFixesSessions(cfg, s, es);
    match o {
      case FromChallenge(ch) => ConsumedForGood(cfg, s, es, ch);
      case FromOrphan(raw) => RunFixesTokens(cfg, s, es);
    }
  }

  ghost predicate Sound(cfg: Settings, s: Store) {
    Linked(cfg, s) && ChallengesSound(cfg, s)
  }

  lemma TickStaysSound(cfg: Settings, s: Store, elapsed: nat)
    requires Sound(cfg, s)
    ensures Sound(cfg, Tick(s, elapsed))
  {
    TickKeeps(cfg, s, elapsed);
    TickSound(cfg, s, elapsed);
  }

  lemma StepStaysSound(cfg: Settings, s: Store, e: Event)
    requires Sensible(cfg) && Sound(cfg, s)
    ensures Sound(cfg, Step(cfg, s, e).0)
  {
    TickStaysSound(cfg, s, e.elapsed);
    ChallengeStep(cfg, Tick(s, e.elapsed), e.request);
    StepKeeps(cfg, s, e);
  }

  lemma StepLeavesConsumed(cfg: Settings, s: Store, e: Event, ch: ChallengeId)
    requires Sensible(cfg) && Sound(cfg, s) && ch in s.challenges && s.challenges[ch].consumed
    ensures ch in Step(cfg, s, e).0.challenges && Step(cfg, s, e).0.challenges[ch].consumed
  {
    TickStaysSound(cfg, s, e.elapsed);
    ChallengeStep(cfg, Tick(s, e.elapsed), e.request);
  }

  ghost predicate NotFrom(m: map<SessionId, Origin>, ch: ChallengeId) {
    forall sid | sid in m :: m[sid] != FromChallenge(ch)
  }

  lemma ConsumedAnswersNothing(cfg: Settings, s: Store, r: Request, ch: ChallengeId)
    requires ch in s.challenges && s.challenges[ch].consumed
    ensures NotFrom(Opened(cfg, s, r), ch)
  {
  }

  /** A consumed challenge opens no session any more. */
  lemma {:induction false} ConsumedOpensNothing(cfg: Settings, s: Store, es: seq<Event>, ch: ChallengeId)
    requires Sensible(cfg) && Sound(cfg, s) && ch in s.challenges && s.challenges[ch].consumed
    ensures NotFrom(Origins(cfg, s, es), ch)
    decreases |es|
  {
    if es != [] {
      ConsumedAnswersNothing(cfg, Tick(s, es[0].elapsed), es[0].request, ch);
      StepStaysSound(cfg, s, es[0]);
      StepLeavesConsumed(cfg, s, es[0], ch);
      ConsumedOpensNothing(cfg, Step(cfg, s, es[0]).0, es[1..], ch);
    }
  }

  /** Every session of a run is one of the start's, or has one origin that explains it; and no
      challenge opens two. */
  ghost predicate Accounted(s: Store, t: Store, m: map<SessionId, Origin>) {
    && Opens(s, t, m)
    && (forall a, b | a in m && b in m && m[a] == m[b] && m[a].FromChallenge? :: a == b)
  }

  /** An explained session stays explained, and its challenge opens nothing else. */
  ghost predicate Lasts(cfg: Settings, t: Store, es: seq<Event>, sid: SessionId, o: Origin) {
    && Explained(Run(cfg, t, es), sid, o)
    && (o.FromChallenge? ==> NotFrom(Origins(cfg, t, es), o.ch))
  }

  lemma {:induction false} ExplainedLasts(cfg: Settings, t: Store, es: seq<Event>, sid: SessionId, o: Origin)
    requires Sensible(cfg) && Sound(cfg, t) && Explained(t, sid, o)
    ensures Lasts(cfg, t, es, sid, o)
  {
    ExplanationLasts(cfg, t, es, sid, o);
    if o.FromChallenge? {
      ConsumedOpensNothing(cfg, t, es, o.ch);
    }
  }

  lemma {:induction false} HeadLasts(cfg: Settings, s: Store, t: Store, es: seq<Event>, head: map<SessionId, Origin>)
    requires Sensible(cfg) && Sound(cfg, t) && Opens(s, t, head)
    ensures forall sid | sid in head :: Lasts(cfg, t, es, sid, head[sid])
  {
    forall sid | sid in head ensures Lasts(cfg, t, es, sid, head[sid]) {
      ExplainedLasts(cfg, t, es, sid, head[sid]);
    }
  }

  lemma StepOpens(cfg: Settings, s: Store, e: Event)
    requires Linked(cfg, s)
    ensures Opens(s, Step(cfg, s, e).0, Opened(cfg, Tick(s, e.elapsed), e.request))
  {
    TickKeeps(cfg, s, e.elapsed);
    OpenedExplained(cfg, Tick(s, e.elapsed), e.request);
  }

  lemma OneAtATime(cfg: Settings, s: Store, r: Request)
    ensures forall sid | sid in Opened(cfg, s, r) :: sid == s.next
  {
  }

  lemma Chain(s: Store, t: Store, u: Store, head: map<SessionId, Origin>, tail: map<SessionId, Origin>)
    requires Opens(s, t, head) && Accounted(t, u, tail)
    requires forall sid | sid in head ::
      Explained(u, sid, head[sid]) && (head[sid].FromChallenge? ==> NotFrom(tail, head[sid].ch))
    requires forall a, b | a in head && b in head :: a == b
    ensures Accounted(s, u, tail + head)
  {
  }

  /** Provenance: every session of every run that the start did not have was opened by presenting
      the current code of a challenge, consumed ever after, with the same holder and audience, and
      no challenge opened two; or it adopted an orphan family. */
  lemma {:induction false} EverySessionAccounted(cfg: Settings, s: Store, es: seq<Event>)
    requires Sensible(cfg) && Sound(cfg, s)
    ensures Accounted(s, Run(cfg, s, es), Origins(cfg, s, es))
    decreases |es|
  {
    if es != [] {
      var t, rest := Step(cfg, s, es[0]).0, es[1..];
      var head := Opened(cfg, Tick(s, es[0].elapsed), es[0].request);
      StepOpens(cfg, s, es[0]);
      OneAtATime(cfg, Tick(s, es[0].elapsed), es[0].request);
      StepStaysSound(cfg, s, es[0]);
      HeadLasts(cfg, s, t, rest, head);
      EverySessionAccounted(cfg, t, rest);
      Chain(s, t, Run(cfg, t, rest), head, Origins(cfg, t, rest));
    }
  }

  /** Both factors: a session a run opened through a challenge that the start did not have goes back to
      a right password of its holder, or a Google identity that is its holder. */
  lemma {:induction false} SessionsNeedBothFactors(cfg: Settings, s: Store, es: seq<Event>, sid: SessionId)
    requires Sensible(cfg) && Sound(cfg, s) && sid in Origins(cfg, s, es)
    ensures var t := Run(cfg, s, es); var o := Origins(cfg, s, es)[sid];
      && sid in t.sessions
      && (o.FromChallenge? && o.ch !in s.challenges ==>
            StartedInRun(cfg, s, es, o.ch, t.sessions[sid].credential))
  {
    EverySessionAccounted(cfg, s, es);
    var o := Origins(cfg, s, es)[sid];
    if o.FromChallenge? {
      NoChallengeWithoutFirstFactor(cfg, s, es, o.ch);
    }
  }

  // --- Identity along rotations -----------------------------------------------

  /** Family `f` answers with one access token: one holder, one audience, one session. */
  ghost predicate Bound(s: Store, f: FamilyId, a: AccessToken) {
    && f < s.next
    && (forall raw | raw in s.tokens && s.tokens[raw].family == f ::
          s.tokens[raw].credential == a.sub && s.tokens[raw].audience == a.aud)
    && a.sid in s.sessions && s.sessions[a.sid].family == Some(f)
  }

  lemma SignInKeepsBound(cfg: Settings, s: Store, ch: ChallengeId, f: FamilyId, a: AccessToken)
    requires Drawn(s) && ch in s.challenges && s.challenges[ch].credential in s.credentials && Bound(s, f, a)
    ensures Bound(SignedIn(cfg, s, ch), f, a)
  {
    ClearedOnlyRevokes(cfg, s, ch);
  }

  lemma RotationKeepsBound(cfg: Settings, s: Store, raw: Secret, f: FamilyId, a: AccessToken)
    requires Linked(cfg, s) && Wins(s, raw) && Bound(s, f, a)
    ensures var (u, claim) := ClaimToken(s, raw);
      && Bound(Finished(cfg, u, claim), f, a)
      && (claim.family == f ==> RotationGrant(cfg, u, claim).access == a)
  {
    if s.tokens[raw].family == f {
      SessionOfFamilyFinds(s.sessions, f, a.sid);
    }
  }

  lemma RevokingKeepsBound(s: Store, t: Store, f: FamilyId, a: AccessToken)
    requires OnlyRevokes(s, t) && s.next <= t.next && Bound(s, f, a)
    ensures Bound(t, f, a)
  {
  }

  lemma BoundByShape(cfg: Settings, s: Store, r: Request, t: Store, o: Outcome, f: FamilyId, a: AccessToken)
    requires Linked(cfg, s) && Shaped(cfg, s, r, t, o) && Bound(s, f, a)
    ensures Bound(t, f, a)
    ensures Rotates(s, r) && s.tokens[r.raw].family == f ==> o.Granted? && o.access == a
  {
    if SignsIn(s, r) {
      SignInKeepsBound(cfg, s, r.challenge, f, a);
    } else if Rotates(s, r) {
      RotationKeepsBound(cfg, s, r.raw, f, a);
    } else {
      RevokingKeepsBound(s, t, f, a);
    }
  }

  lemma BoundStep(cfg: Settings, s: Store, r: Request, f: FamilyId, a: AccessToken)
    requires Linked(cfg, s) && Bound(s, f, a)
    ensures Bound(Handle(cfg, s, r).0, f, a)
    ensures Rotates(s, r) && s.tokens[r.raw].family == f ==> Handle(cfg, s, r).1.access == a
  {
    HandleShaped(cfg, s, r);
    BoundByShape(cfg, s, r, Handle(cfg, s, r).0, Handle(cfg, s, r).1, f, a);
  }

  lemma WonFamily(cfg: Settings, s: Store, raw: Secret)
    requires Linked(cfg, s) && Wins(s, raw)
    ensures forall x | x in s.tokens && s.tokens[x].family == s.tokens[raw].family ::
      s.tokens[x].credential == s.tokens[raw].credential && s.tokens[x].audience == s.tokens[raw].audience
  {
    forall x | x in s.tokens && s.tokens[x].family == s.tokens[raw].family
      ensures s.tokens[x].credential == s.tokens[raw].credential && s.tokens[x].audience == s.tokens[raw].audience
    {
      assert SameFamily(s.tokens, x, raw);
    }
  }

  lemma SignInBinds(cfg: Settings, s: Store, ch: ChallengeId)
    requires Drawn(s) && ch in s.challenges && s.challenges[ch].credential in s.credentials
    ensures Bound(SignedIn(cfg, s, ch), s.next + 2, SignInGrant(cfg, s, ch).access)
  {
    ClearedOnlyRevokes(cfg, s, ch);
  }

  lemma RotationBinds(cfg: Settings, s: Store, raw: Secret)
    requires Linked(cfg, s) && Wins(s, raw)
    ensures var (u, claim) := ClaimToken(s, raw);
      Bound(Finished(cfg, u, claim), claim.family, RotationGrant(cfg, u, claim).access)
  {
    ClaimIsTied(s, raw);
    WonFamily(cfg, s, raw);
  }

  lemma GrantBinds(cfg: Settings, s: Store, r: Request, t: Store, o: Outcome)
    requires Linked(cfg, s) && Shaped(cfg, s, r, t, o) && o.Granted?
    ensures o.refresh in t.tokens && Bound(t, t.tokens[o.refresh].family, o.access)
  {
    if SignsIn(s, r) {
      SignInBinds(cfg, s, r.challenge);
    } else if Rotates(s, r) {
      RotationBinds(cfg, s, r.raw);
    }
  }

  lemma {:induction false} BoundRun(cfg: Settings, s: Store, es: seq<Event>, f: FamilyId, a: AccessToken)
    requires Linked(cfg, s) && Bound(s, f, a)
    ensures Bound(Run(cfg, s, es), f, a)
    decreases |es|
  {
    if es != [] {
      TickKeeps(cfg, s, es[0].elapsed);
      BoundStep(cfg, Tick(s, es[0].elapsed), es[0].request, f, a);
      StepKeeps(cfg, s, es[0]);
      BoundRun(cfg, Step(cfg, s, es[0]).0, es[1..], f, a);
    }
  }

  lemma GrantStepBinds(cfg: Settings, s: Store, e: Event)
    requires Linked(cfg, s) && Step(cfg, s, e).1.Granted?
    ensures var (t, o) := Step(cfg, s, e);
      Linked(cfg, t) && o.refresh in t.tokens && Bound(t, t.tokens[o.refresh].family, o.access)
  {
    TickKeeps(cfg, s, e.elapsed);
    HandleShaped(cfg, Tick(s, e.elapsed), e.request);
    GrantBinds(cfg, Tick(s, e.elapsed), e.request, Step(cfg, s, e).0, Step(cfg, s, e).1);
    StepKeeps(cfg, s, e);
  }

  lemma BoundRefresh(cfg: Settings, s: Store, e: Event, f: FamilyId, a: AccessToken)
    requires Linked(cfg, s) && Bound(s, f, a)
    requires e.request.DoRefresh? && e.request.raw in s.tokens && s.tokens[e.request.raw].family == f
    ensures Step(cfg, s, e).1.Granted? ==> Step(cfg, s, e).1.access == a
  {
    var s1 := Tick(s, e.elapsed);
    TickKeeps(cfg, s, e.elapsed);
    assert Bound(s1, f, a);
    RotateShape(cfg, s1, e.request.raw);
    BoundStep(cfg, s1, e.request, f, a);
  }

  /** Every rotation in a family, however much later, answers with the `sub`, `aud` and `sid` of
      the grant that issued any earlier token of it. */
  lemma {:induction false} RotationsKeepIdentity(cfg: Settings, s: Store, e: Event, es: seq<Event>, later: Event)
    requires Linked(cfg, s) && Step(cfg, s, e).1.Granted?
    ensures var (t, o) := Step(cfg, s, e); var u := Run(cfg, t, es);
      && o.refresh in t.tokens
      && (later.request.DoRefresh? && later.request.raw in u.tokens
          && u.tokens[later.request.raw].family == t.tokens[o.refresh].family
          && Step(cfg, u, later).1.Granted?
          ==> Step(cfg, u, later).1.access == o.access)
  {
    var (t, o) := Step(cfg, s, e);
    GrantStepBinds(cfg, s, e);
    BoundRun(cfg, t, es, t.tokens[o.refresh].family, o.access);
    RunKeeps(cfg, t, es);
    var u := Run(cfg, t, es);
    if later.request.DoRefresh? && later.request.raw in u.tokens
       && u.tokens[later.request.raw].family == t.tokens[o.refresh].family {
      BoundRefresh(cfg, u, later, t.tokens[o.refresh].family, o.access);
    }
  }
}
