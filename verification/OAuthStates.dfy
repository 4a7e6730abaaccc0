/** The OAuth `state` nonce (services.py:826-870; section 10.12 of RFC 6749): burned at most once
    under any interleaving of callbacks, and purging expired rows is invisible. */
module OAuthStates {
  import opened Options
  import opened Settings
  import opened Tables
  import opened Sessions
  import opened SignIn
  import opened Accounts
  import opened Machine
  import opened Invariants

  // --- Callbacks racing on one state ------------------------------------------

  /** A callback's conditional UPDATE takes the row and its lock; the commit burns the state.
      `holding` has the callbacks in between, `accepted` those that committed, `issued` every
      state ever minted. */
  datatype Race = Race(
    now: int,
    states: StateTable,
    issued: set<Secret>,
    holding: map<nat, Secret>,
    accepted: map<nat, Secret>)

  datatype Move =
    | Mint(elapsed: nat, state: Secret, ttl: int)
    | Claim(pid: nat, elapsed: nat, state: Secret)
    | Commit(pid: nat)
    | Abort(pid: nat)
    | Purge(elapsed: nat)

  predicate Free(q: Race, state: Secret) {
    state !in q.holding.Values
  }

  predicate Burnable(q: Race, state: Secret) {
    state in q.states && !q.states[state].consumed && q.states[state].expiresAt > q.now
  }

  /** A claim on a row another callback has locked waits: the move is not taken. */
  function Advance(q0: Race, m: Move): Race {
    match m
    case Mint(elapsed, state, ttl) =>
      var q := q0.(now := q0.now + elapsed);
      if state in q.issued then q
      else q.(issued := q.issued + {state}, states := q.states[state := OAuthState(q.now + ttl, false)])
    case Claim(pid, elapsed, state) =>
      var q := q0.(now := q0.now + elapsed);
      if pid in q.holding || pid in q.accepted || !Free(q, state) || !Burnable(q, state) then q
      else q.(holding := q.holding[pid := state])
    case Commit(pid) =>
      if pid !in q0.holding || q0.holding[pid] !in q0.states then q0
      else
        var x := q0.holding[pid];
        q0.(states := q0.states[x := q0.states[x].(consumed := true)],
            holding := q0.holding - {pid}, accepted := q0.accepted[pid := x])
    case Abort(pid) => q0.(holding := q0.holding - {pid})
    case Purge(elapsed) =>
      var q := q0.(now := q0.now + elapsed);
      q.(states := map x | x in q.states && (q.states[x].expiresAt >= q.now || !Free(q, x)) :: q.states[x])
  }

  function RunRace(q: Race, ms: seq<Move>): Race
    decreases |ms|
  {
    if ms == [] then q else RunRace(Advance(q, ms[0]), ms[1..])
  }

  /** A locked row is still whole, an accepted state is burned or gone, and neither is shared. */
  ghost predicate Sound(q: Race) {
    && q.states.Keys <= q.issued
    && (forall p | p in q.holding :: q.holding[p] in q.states && !q.states[q.holding[p]].consumed)
    && (forall p | p in q.accepted ::
          q.accepted[p] in q.issued && (q.accepted[p] in q.states ==> q.states[q.accepted[p]].consumed))
    && (forall a, b | a in q.holding && b in q.holding && q.holding[a] == q.holding[b] :: a == b)
    && (forall a, b | a in q.accepted && b in q.accepted && q.accepted[a] == q.accepted[b] :: a == b)
  }

  lemma AdvanceSound(q: Race, m: Move)
    requires Sound(q)
    ensures Sound(Advance(q, m))
  {
    match m {
      case Claim(pid, elapsed, state) =>
        assert forall p | p in q.holding :: q.holding[p] in q.holding.Values;
      case Purge(elapsed) =>
        assert forall p | p in q.holding :: q.holding[p] in q.holding.Values;
      case _ =>
    }
  }

  /** However callbacks, crashes and purges interleave, no two callbacks are accepted on one state. */
  lemma {:induction false} BurnedAtMostOnce(q: Race, ms: seq<Move>)
    requires Sound(q)
    ensures Sound(RunRace(q, ms))
    ensures var k := RunRace(q, ms);
      forall a, b | a in k.accepted && b in k.accepted && k.accepted[a] == k.accepted[b] :: a == b
    decreases |ms|
  {
    if ms != [] {
      AdvanceSound(q, ms[0]);
      BurnedAtMostOnce(Advance(q, ms[0]), ms[1..]);
    }
  }

  // --- One request after another ----------------------------------------------

  /** The request is a callback with this state. */
  predicate Presents(r: Request, state: Secret) {
    r.DoGoogleCallback? && r.state == Some(state)
  }

  lemma PresentedIffUsable(cfg: Settings, s: Store, r: Request, state: Secret)
    requires Presents(r, state)
    ensures Handle(cfg, s, r).1 == Refused(InvalidOAuthState) <==> !StateUsable(s, Some(state))
  {
  }

  /** Minted once, and burned or swept away since. */
  ghost predicate Gone(s: Store, state: Secret) {
    state < s.next && (state in s.states ==> s.states[state].consumed)
  }

  lemma StatesHere(cfg: Settings, s: Store, r: Request, state: Secret)
    requires r.DoGoogleStart? || r.DoGoogleCallback? || r.DoPurgeStates?
    requires Gone(s, state)
    ensures Gone(Handle(cfg, s, r).0, state)
  {
  }

  lemma GoneStep(cfg: Settings, s: Store, e: Event, state: Secret)
    requires Gone(s, state)
    ensures Gone(Step(cfg, s, e).0, state)
  {
    var s1, r := Tick(s, e.elapsed), e.request;
    if r.DoGoogleStart? || r.DoGoogleCallback? || r.DoPurgeStates? {
      StatesHere(cfg, s1, r, state);
    } else {
      StatesLeftAlone(cfg, s1, r);
      SupplyGrows(cfg, s1, r);
    }
  }

  /** A run answers every callback with this state that the state is invalid. */
  ghost predicate AlwaysRefused(cfg: Settings, s: Store, es: seq<Event>, state: Secret) {
    forall i | 0 <= i < |es| && Presents(es[i].request, state) ::
      Step(cfg, Run(cfg, s, es[..i]), es[i]).1 == Refused(InvalidOAuthState)
  }

  lemma {:induction false} GoneStays(cfg: Settings, s: Store, es: seq<Event>, state: Secret)
    requires Gone(s, state)
    ensures Gone(Run(cfg, s, es), state)
    decreases |es|
  {
    if es != [] {
      GoneStep(cfg, s, es[0], state);
      GoneStays(cfg, Step(cfg, s, es[0]).0, es[1..], state);
    }
  }

  lemma {:induction false} GoneIsRefused(cfg: Settings, s: Store, es: seq<Event>, state: Secret)
    requires Gone(s, state)
    ensures AlwaysRefused(cfg, s, es, state)
  {
    forall i | 0 <= i < |es| && Presents(es[i].request, state)
      ensures Step(cfg, Run(cfg, s, es[..i]), es[i]).1 == Refused(InvalidOAuthState)
    {
      GoneStays(cfg, s, es[..i], state);
      PresentedIffUsable(cfg, Tick(Run(cfg, s, es[..i]), es[i].elapsed), es[i].request, state);
    }
  }

  lemma BurnedByCallback(cfg: Settings, s: Store, r: Request, state: Secret)
    requires Presents(r, state) && state < s.next && StateUsable(s, Some(state))
    ensures Gone(Handle(cfg, s, r).0, state)
  {
  }

  /** A state accepted once, whatever became of the sign-in behind it, is refused to every later
      callback of every run. */
  lemma {:induction false} GoneForGood(cfg: Settings, s: Store, e: Event, es: seq<Event>, state: Secret)
    requires Drawn(s) && Presents(e.request, state)
    requires Step(cfg, s, e).1 != Refused(InvalidOAuthState)
    ensures AlwaysRefused(cfg, Step(cfg, s, e).0, es, state)
  {
    var s1 := Tick(s, e.elapsed);
    PresentedIffUsable(cfg, s1, e.request, state);
    BurnedByCallback(cfg, s1, e.request, state);
    GoneIsRefused(cfg, Step(cfg, s, e).0, es, state);
  }

  /** Minted, not presented yet, and good until `deadline`. */
  ghost predicate Waiting(s: Store, state: Secret, deadline: int) {
    state < s.next && state in s.states && s.states[state] == OAuthState(deadline, false)
  }

  lemma WaitsOn(cfg: Settings, s: Store, r: Request, state: Secret, deadline: int)
    requires Waiting(s, state, deadline) && s.now < deadline && !Presents(r, state)
    ensures Waiting(Handle(cfg, s, r).0, state, deadline)
  {
    if r.DoGoogleStart? || r.DoPurgeStates? {
    } else if r.DoGoogleCallback? {
      CallbackSparesOthers(cfg, s, r, state);
    } else {
      StatesLeftAlone(cfg, s, r);
      SupplyGrows(cfg, s, r);
    }
  }

  lemma CallbackSparesOthers(cfg: Settings, s: Store, r: Request, state: Secret)
    requires r.DoGoogleCallback? && !Presents(r, state) && state in s.states
    ensures var t := Handle(cfg, s, r).0;
      state in t.states && t.states[state] == s.states[state] && s.next <= t.next
  {
  }

  ghost predicate NeverPresented(es: seq<Event>, state: Secret) {
    forall e | e in es :: !Presents(e.request, state)
  }

  /** After a run the state still waits if nobody presented it and its time has not come, and is
      gone if somebody did before it came. */
  lemma {:induction false} WaitingRun(cfg: Settings, s: Store, es: seq<Event>, state: Secret, deadline: int)
    requires Waiting(s, state, deadline) && Run(cfg, s, es).now < deadline
    ensures if NeverPresented(es, state) then Waiting(Run(cfg, s, es), state, deadline)
            else Gone(Run(cfg, s, es), state)
    decreases |es|
  {
    if es != [] {
      var s1, t, rest := Tick(s, es[0].elapsed), Step(cfg, s, es[0]).0, es[1..];
      ClockGrows(cfg, t, rest);
      ClockHolds(cfg, s1, es[0].request);
      assert forall e | e in es :: e == es[0] || e in rest;
      if Presents(es[0].request, state) {
        BurnedByCallback(cfg, s1, es[0].request, state);
        GoneStays(cfg, t, rest, state);
      } else {
        WaitsOn(cfg, s1, es[0].request, state, deadline);
        WaitingRun(cfg, t, rest, state, deadline);
      }
    }
  }

  /** The state is good until `deadline` at most. */
  ghost predicate EndsBy(s: Store, state: Secret, deadline: int) {
    state < s.next && (state in s.states ==> s.states[state].expiresAt <= deadline)
  }

  lemma DeadlineStep(cfg: Settings, s: Store, r: Request, state: Secret, deadline: int)
    requires EndsBy(s, state, deadline)
    ensures EndsBy(Handle(cfg, s, r).0, state, deadline)
  {
    if !r.DoGoogleStart? && !r.DoGoogleCallback? && !r.DoPurgeStates? {
      StatesLeftAlone(cfg, s, r);
      SupplyGrows(cfg, s, r);
    }
  }

  lemma {:induction false} DeadlineKept(cfg: Settings, s: Store, es: seq<Event>, state: Secret, deadline: int)
    requires EndsBy(s, state, deadline)
    ensures EndsBy(Run(cfg, s, es), state, deadline)
    decreases |es|
  {
    if es != [] {
      DeadlineStep(cfg, Tick(s, es[0].elapsed), es[0].request, state, deadline);
      DeadlineKept(cfg, Step(cfg, s, es[0]).0, es[1..], state, deadline);
    }
  }

  /** The life of a state: a callback with it is accepted if and only if it comes before the
      deadline and none came before it. */
  lemma {:induction false} AcceptedOnceInTime(cfg: Settings, s: Store, e: Event, es: seq<Event>, later: Event,
                                              state: Secret)
    requires e.request.DoGoogleStart? && Step(cfg, s, e).1 == Issued(state)
    requires Presents(later.request, state)
    ensures var t := Step(cfg, s, e).0; var u := Run(cfg, t, es);
      Step(cfg, u, later).1 != Refused(InvalidOAuthState)
      <==> u.now + later.elapsed < t.now + cfg.oauthStateTtl && NeverPresented(es, state)
  {
    var t := Step(cfg, s, e).0;
    var u := Run(cfg, t, es);
    PresentedIffUsable(cfg, Tick(u, later.elapsed), later.request, state);
    if u.now < t.now + cfg.oauthStateTtl {
      WaitingRun(cfg, t, es, state, t.now + cfg.oauthStateTtl);
    } else {
      DeadlineKept(cfg, t, es, state, t.now + cfg.oauthStateTtl);
    }
  }

  /** Starting always issues a state that was never issued before and waits to be presented. */
  lemma StartIssues(cfg: Settings, s: Store)
    requires Drawn(s)
    ensures var (t, o) := IssueState(cfg, s);
      && o.Issued? && o.secret !in s.states && t.states.Keys == s.states.Keys + {o.secret}
      && Waiting(t, o.secret, s.now + cfg.oauthStateTtl)
  {
  }

  // --- What a purge leaves ----------------------------------------------------

  /** How many states were issued in the run at `since` or later. */
  ghost function IssuedSince(cfg: Settings, s: Store, es: seq<Event>, since: int): nat
    decreases |es|
  {
    if es == [] then 0
    else
      (if es[0].request.DoGoogleStart? && s.now + es[0].elapsed >= since then 1 else 0)
      + IssuedSince(cfg, Step(cfg, s, es[0]).0, es[1..], since)
  }

  /** The states good at `until` or later. */
  ghost function GoodUntil(s: Store, until: int): set<Secret> {
    set x | x in s.states && s.states[x].expiresAt >= until
  }

  lemma GoodStep(cfg: Settings, s: Store, r: Request, until: int)
    requires Drawn(s)
    ensures var t := Handle(cfg, s, r).0;
      && GoodUntil(t, until) <= GoodUntil(s, until) + (if r.DoGoogleStart? then {s.next} else {})
      && (r.DoGoogleStart? && s.now + cfg.oauthStateTtl < until ==> GoodUntil(t, until) <= GoodUntil(s, until))
  {
    if !r.DoGoogleStart? && !r.DoGoogleCallback? && !r.DoPurgeStates? {
      StatesLeftAlone(cfg, s, r);
    }
  }

  lemma AtMostOneMore(a: set<Secret>, b: set<Secret>, x: Secret)
    requires b <= a + {x}
    ensures |b| <= |a| + 1
  {
    var rest := b - {x};
    assert rest <= a;
    assert a == rest + (a - rest);
    assert b <= rest + {x};
    if x in b {
      assert b == rest + {x};
    } else {
      assert b == rest;
    }
  }

  lemma AtMostAsMany(a: set<Secret>, b: set<Secret>)
    requires b <= a
    ensures |b| <= |a|
  {
    assert a == b + (a - b);
  }

  lemma {:induction false} GoodAreRecent(cfg: Settings, s: Store, es: seq<Event>, until: int)
    requires Linked(cfg, s)
    ensures |GoodUntil(Run(cfg, s, es), until)|
         <= |GoodUntil(s, until)| + IssuedSince(cfg, s, es, until - cfg.oauthStateTtl)
    decreases |es|
  {
    if es != [] {
      var s1, t := Tick(s, es[0].elapsed), Step(cfg, s, es[0]).0;
      TickKeeps(cfg, s, es[0].elapsed);
      GoodStep(cfg, s1, es[0].request, until);
      assert GoodUntil(s1, until) == GoodUntil(s, until);
      if es[0].request.DoGoogleStart? && s1.now >= until - cfg.oauthStateTtl {
        AtMostOneMore(GoodUntil(s, until), GoodUntil(t, until), s1.next);
      } else {
        AtMostAsMany(GoodUntil(s, until), GoodUntil(t, until));
      }
      StepKeeps(cfg, s, es[0]);
      GoodAreRecent(cfg, t, es[1..], until);
    }
  }

  /** A purge leaves exactly the states whose time has not passed... */
  lemma PurgeLeaves(s: Store)
    ensures var t := PurgeStates(s).0;
      && t.states.Keys == GoodUntil(s, s.now)
      && (forall x | x in t.states :: t.states[x] == s.states[x])
  {
  }

  lemma {:induction false} PurgeLeavesTheRecent(cfg: Settings, s: Store, es: seq<Event>)
    requires Linked(cfg, s)
    ensures var u := Run(cfg, s, es);
      |PurgeStates(u).0.states.Keys| <= |GoodUntil(s, u.now)| + IssuedSince(cfg, s, es, u.now - cfg.oauthStateTtl)
  {
    GoodAreRecent(cfg, s, es, Run(cfg, s, es).now);
    PurgeLeaves(Run(cfg, s, es));
  }

  lemma NoneAtFirst(until: int)
    ensures GoodUntil(EMPTY, until) == {}
  {
  }

  /** ...so the table does not grow without bound: after any run of a new deployment, a purge leaves at
      most as many states as were issued in the last OAUTH_STATE_TTL_SECONDS. */
  lemma {:induction false} PurgeBoundsTheTable(cfg: Settings, es: seq<Event>)
    ensures var u := Run(cfg, EMPTY, es);
      |PurgeStates(u).0.states.Keys| <= IssuedSince(cfg, EMPTY, es, u.now - cfg.oauthStateTtl)
  {
    EmptyIsLinked(cfg);
    NoneAtFirst(Run(cfg, EMPTY, es).now);
    PurgeLeavesTheRecent(cfg, EMPTY, es);
  }

  // --- The race and the service agree -----------------------------------------

  /** A callback that claims and commits with nothing in between does what `consume_oauth_state` does:
      it is accepted exactly when that answers so, and leaves the same rows. */
  lemma UndisturbedClaimConsumes(q: Race, pid: nat, state: Secret, s: Store)
    requires q.holding == map[] && pid !in q.accepted && s.states == q.states && s.now == q.now
    ensures var k := Advance(Advance(q, Claim(pid, 0, state)), Commit(pid));
      && k.states == ConsumeState(s, Some(state)).0.states && k.holding == map[]
      && (pid in k.accepted <==> ConsumeState(s, Some(state)).1 == Done)
      && (pid in k.accepted ==> k.accepted[pid] == state)
  {
  }

  /** A callback that claims and aborts leaves the state to the next one. */
  lemma AbortLeavesTheState(q: Race, pid: nat, state: Secret)
    requires pid !in q.holding
    ensures Advance(Advance(q, Claim(pid, 0, state)), Abort(pid)) == q
  {
    assert q.now + 0 == q.now;
    var k := Advance(q, Claim(pid, 0, state));
    assert k.holding - {pid} == q.holding;
  }

  /** Minting and purging agree too. */
  lemma MintAndPurgeAgree(cfg: Settings, q: Race, s: Store)
    requires q.holding == map[] && s.states == q.states && s.now == q.now && s.next !in q.issued
    ensures Advance(q, Mint(0, s.next, cfg.oauthStateTtl)).states == IssueState(cfg, s).0.states
    ensures Advance(q, Purge(0)).states == PurgeStates(s).0.states
  {
  }

  // --- Purging is invisible ---------------------------------------------------

  /** `t` is `s` without some states whose time has passed. */
  ghost predicate Purged(s: Store, t: Store) {
    && t == s.(states := t.states)
    && (forall x | x in t.states :: x in s.states && t.states[x] == s.states[x])
    && (forall x | x in s.states && s.states[x].expiresAt >= s.now :: x in t.states)
  }

  lemma PurgeStatesPurges(s: Store)
    ensures Purged(s, PurgeStates(s).0)
  {
  }

  /** A request answers the same on both stores and leaves them alike. */
  ghost predicate Alike(a: (Store, Outcome), b: (Store, Outcome)) {
    a.1 == b.1 && Purged(a.0, b.0)
  }

  lemma AuthenticateAlike(cfg: Settings, s: Store, t: Store, id: CredentialId, password: Secret)
    requires Purged(s, t)
    ensures Alike(Authenticate(cfg, s, id, password), Authenticate(cfg, t, id, password))
  {
  }

  lemma StartChallengeAlike(cfg: Settings, s: Store, t: Store, id: CredentialId, audience: string, code: Secret,
                            delivered: bool)
    requires Purged(s, t)
    ensures Alike(StartChallenge(cfg, s, id, audience, code, delivered),
                  StartChallenge(cfg, t, id, audience, code, delivered))
  {
  }

  lemma ConsumeAlike(s: Store, t: Store, state: Option<Secret>)
    requires Purged(s, t)
    ensures Alike(ConsumeState(s, state), ConsumeState(t, state))
  {
  }

  lemma IdentityAlike(cfg: Settings, s: Store, t: Store, id: CredentialId, code: Secret, delivered: bool)
    requires Purged(s, t)
    ensures var (s1, x) := UpsertGoogle(s, id); var (t1, y) := UpsertGoogle(t, id);
      && x == y
      && Alike(StartChallenge(cfg, s1, x, cfg.defaultAudience, code, delivered),
               StartChallenge(cfg, t1, x, cfg.defaultAudience, code, delivered))
  {
    var (s1, x) := UpsertGoogle(s, id);
    var t1 := UpsertGoogle(t, id).0;
    assert Purged(s1, t1);
    StartChallengeAlike(cfg, s1, t1, x, cfg.defaultAudience, code, delivered);
  }

  lemma GoogleAlike(cfg: Settings, s: Store, t: Store, state: Option<Secret>, answer: GoogleAnswer, code: Secret,
                    delivered: bool)
    requires Purged(s, t)
    ensures Alike(GoogleCallback(cfg, s, state, answer, code, delivered),
                  GoogleCallback(cfg, t, state, answer, code, delivered))
  {
    ConsumeAlike(s, t, state);
    if answer.Identity? {
      IdentityAlike(cfg, ConsumeState(s, state).0, ConsumeState(t, state).0, answer.credential, code, delivered);
    }
  }

  lemma IssueTokensAlike(cfg: Settings, s: Store, t: Store, c: CredentialId, audience: string,
                         family: Option<FamilyId>, session: Option<SessionId>, supersede: bool)
    requires Purged(s, t)
    ensures Alike(IssueTokens(cfg, s, c, audience, family, session, supersede),
                  IssueTokens(cfg, t, c, audience, family, session, supersede))
  {
  }

  lemma AnswerAlike(cfg: Settings, s: Store, t: Store, ch: ChallengeId)
    requires Purged(s, t) && ch in s.challenges && s.challenges[ch].credential in s.credentials
    ensures var x := s.challenges[ch];
      Alike(IssueTokens(cfg, Accepted(s, ch), x.credential, x.audience, None, None, true),
            IssueTokens(cfg, Accepted(t, ch), x.credential, x.audience, None, None, true))
  {
    var x := s.challenges[ch];
    assert Purged(Accepted(s, ch), Accepted(t, ch));
    IssueTokensAlike(cfg, Accepted(s, ch), Accepted(t, ch), x.credential, x.audience, None, None, true);
  }

  lemma VerifyAlike(cfg: Settings, s: Store, t: Store, ch: ChallengeId, code: Secret)
    requires Purged(s, t)
    ensures Alike(VerifyChallenge(cfg, s, ch, code), VerifyChallenge(cfg, t, ch, code))
  {
    VerifyAnswers(cfg, s, ch, code);
    VerifyAnswers(cfg, t, ch, code);
    if Answers(s, ch, code) {
      AnswerAlike(cfg, s, t, ch);
    }
  }

  lemma RotateAlike(cfg: Settings, s: Store, t: Store, raw: Secret)
    requires Purged(s, t)
    ensures Alike(RotateRefresh(cfg, s, raw), RotateRefresh(cfg, t, raw))
  {
    var (s1, claim) := ClaimToken(s, raw);
    var t1 := ClaimToken(t, raw).0;
    assert claim == ClaimToken(t, raw).1 && Purged(s1, t1);
    if claim.Claimed? {
      IssueTokensAlike(cfg, s1, t1, claim.credential, claim.audience, Some(claim.family), claim.session, false);
    }
  }

  lemma EndingsAlike(cfg: Settings, s: Store, t: Store, r: Request)
    requires Purged(s, t)
    requires r.DoLogout? || r.DoLogoutAll? || r.DoDisable? || r.DoConfirmReset?
    ensures Alike(Handle(cfg, s, r), Handle(cfg, t, r))
  {
  }

  lemma LoginAlike(cfg: Settings, s: Store, t: Store, r: Request)
    requires Purged(s, t) && r.DoLogin?
    ensures Alike(Handle(cfg, s, r), Handle(cfg, t, r))
  {
    AuthenticateAlike(cfg, s, t, r.credential, r.password);
    var s1, t1 := Authenticate(cfg, s, r.credential, r.password).0, Authenticate(cfg, t, r.credential, r.password).0;
    StartChallengeAlike(cfg, s1, t1, r.credential, r.audience, r.code, r.delivered);
  }

  lemma InsertsAlike(cfg: Settings, s: Store, t: Store, r: Request)
    requires Purged(s, t)
    requires r.DoSignUp? || r.DoResend? || r.DoRequestReset? || r.DoGoogleStart? || r.DoPurgeStates?
    ensures Alike(Handle(cfg, s, r), Handle(cfg, t, r))
  {
  }

  lemma HandleAlike(cfg: Settings, s: Store, t: Store, r: Request)
    requires Purged(s, t)
    ensures Alike(Handle(cfg, s, r), Handle(cfg, t, r))
  {
    match r {
      case DoLogin(_, _, _, _, _) => LoginAlike(cfg, s, t, r);
      case DoVerify(ch, code) => VerifyAlike(cfg, s, t, ch, code);
      case DoRefresh(raw) => RotateAlike(cfg, s, t, raw);
      case DoLogout(_) => EndingsAlike(cfg, s, t, r);
      case DoLogoutAll(_) => EndingsAlike(cfg, s, t, r);
      case DoDisable(_) => EndingsAlike(cfg, s, t, r);
      case DoConfirmReset(_, _) => EndingsAlike(cfg, s, t, r);
      case DoGoogleCallback(state, answer, code, delivered) => GoogleAlike(cfg, s, t, state, answer, code, delivered);
      case _ => InsertsAlike(cfg, s, t, r);
    }
  }

  lemma {:induction false} PurgedRunsAlike(cfg: Settings, s: Store, t: Store, es: seq<Event>)
    requires Purged(s, t)
    ensures Outcomes(cfg, s, es) == Outcomes(cfg, t, es) && Purged(Run(cfg, s, es), Run(cfg, t, es))
    decreases |es|
  {
    if es != [] {
      var e := es[0];
      assert Purged(Tick(s, e.elapsed), Tick(t, e.elapsed));
      HandleAlike(cfg, Tick(s, e.elapsed), Tick(t, e.elapsed), e.request);
      PurgedRunsAlike(cfg, Step(cfg, s, e).0, Step(cfg, t, e).0, es[1..]);
    }
  }

  /** Wherever in a run the housekeeping happens, no later request, a callback included, answers
      any differently for it. */
  lemma {:induction false} PurgeIsInvisible(cfg: Settings, s: Store, before: seq<Event>, after: seq<Event>)
    ensures var u := Run(cfg, s, before);
      Outcomes(cfg, PurgeStates(u).0, after) == Outcomes(cfg, u, after)
  {
    var u := Run(cfg, s, before);
    PurgeStatesPurges(u);
    PurgedRunsAlike(cfg, u, PurgeStates(u).0, after);
  }
}
