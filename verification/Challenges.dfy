/** Sign-in challenges: one open at a time, a bounded life and a bounded number of guesses
    (services.py:262-461). */
module Challenges {
  import opened Settings
  import opened Tables
  import opened Sessions
  import opened SignIn
  import opened Accounts
  import opened Machine
  import opened Invariants
  import opened Shapes

  /** The settings for which the bounds below mean something. */
  predicate Sensible(cfg: Settings) {
    cfg.otpMaxAttempts >= 1 && cfg.otpMaxSends >= 1 && cfg.otpChallengeMaxAge >= 0
  }

  /** The clock and counter bounds of one challenge at time `now`. */
  ghost predicate Bounded(cfg: Settings, now: int, x: Challenge) {
    && x.createdAt <= x.lastSentAt <= now
    && (x.sends - 1) * cfg.otpResendCooldown <= x.lastSentAt - x.createdAt <= cfg.otpChallengeMaxAge
    && x.expiresAt == x.lastSentAt + cfg.otpTtl
    && 1 <= x.sends <= cfg.otpMaxSends
    && 0 <= x.attempts <= cfg.otpMaxAttempts
    && (!x.consumed ==> x.attempts < cfg.otpMaxAttempts)
  }

  ghost predicate OneOpen(challenges: ChallengeTable) {
    forall a, b | a in challenges && b in challenges
                  && !challenges[a].consumed && !challenges[b].consumed
                  && challenges[a].credential == challenges[b].credential :: a == b
  }

  ghost predicate AllBounded(cfg: Settings, s: Store) {
    forall ch | ch in s.challenges :: Bounded(cfg, s.now, s.challenges[ch])
  }

  ghost predicate ChallengesSound(cfg: Settings, s: Store) {
    AllBounded(cfg, s) && OneOpen(s.challenges)
  }

  /** The request compares a wrong code with the one last sent for `ch`. */
  ghost predicate WrongCode(s: Store, r: Request, ch: ChallengeId) {
    && r.DoVerify? && r.challenge == ch && ch in s.challenges
    && var x := s.challenges[ch];
    && !x.consumed && s.now <= x.expiresAt && x.code != r.code
    && Enabled(s, x.credential) && !Locked(s.credentials[x.credential], s.now)
  }

  /** The guesses a challenge has used up, counting each earlier code as fully guessed. */
  ghost function Price(cfg: Settings, x: Challenge): int {
    (x.sends - 1) * (cfg.otpMaxAttempts - 1) + x.attempts
  }

  ghost function Spent(cfg: Settings, s: Store, ch: ChallengeId): int {
    if ch in s.challenges then Price(cfg, s.challenges[ch]) else 0
  }

  /** A row keeps its birth, a consumed one is frozen, and a wrong code is paid for. */
  ghost predicate RowMoves(cfg: Settings, x: Challenge, y: Challenge, wrong: bool) {
    && y.createdAt == x.createdAt
    && (x.consumed ==> y == x)
    && Price(cfg, y) >= Price(cfg, x) + (if wrong then 1 else 0)
  }

  /** What a request may do to the challenge table. */
  ghost predicate Moves(cfg: Settings, s: Store, r: Request, t: Store) {
    && (forall ch | ch in s.challenges ::
          ch in t.challenges && RowMoves(cfg, s.challenges[ch], t.challenges[ch], WrongCode(s, r, ch)))
    && (forall ch | ch in t.challenges && ch !in s.challenges :: Price(cfg, t.challenges[ch]) >= 0)
  }

  lemma UntouchedMoves(cfg: Settings, s: Store, r: Request, t: Store)
    requires ChallengesSound(cfg, s) && s.challenges == t.challenges && t.now == s.now
    requires forall ch :: !WrongCode(s, r, ch)
    ensures ChallengesSound(cfg, t) && Moves(cfg, s, r, t)
  {
  }

  lemma StartSound(cfg: Settings, s: Store, id: CredentialId, audience: string, code: Secret, delivered: bool)
    requires Sensible(cfg) && ChallengesSound(cfg, s)
    ensures ChallengesSound(cfg, StartChallenge(cfg, s, id, audience, code, delivered).0)
  {
    var t := StartChallenge(cfg, s, id, audience, code, delivered).0;
    forall ch | ch in t.challenges ensures Bounded(cfg, t.now, t.challenges[ch]) {
      if ch != s.next {
        assert Bounded(cfg, s.now, s.challenges[ch]);
      }
    }
  }

  lemma SamePrice(cfg: Settings, x: Challenge, y: Challenge)
    requires x.sends == y.sends && x.attempts == y.attempts
    ensures Price(cfg, x) == Price(cfg, y)
  {
  }

  lemma StartMoves(cfg: Settings, s: Store, r: Request, id: CredentialId, audience: string, code: Secret,
                   delivered: bool)
    requires s.next !in s.challenges && !r.DoVerify?
    ensures Moves(cfg, s, r, StartChallenge(cfg, s, id, audience, code, delivered).0)
  {
    var t := StartChallenge(cfg, s, id, audience, code, delivered).0;
    forall ch | ch in s.challenges
      ensures ch in t.challenges && RowMoves(cfg, s.challenges[ch], t.challenges[ch], false)
    {
      SamePrice(cfg, s.challenges[ch], t.challenges[ch]);
    }
  }

  lemma ResentRow(cfg: Settings, now: int, x: Challenge, code: Secret)
    requires Sensible(cfg) && Bounded(cfg, now, x) && !x.consumed
    requires now - x.createdAt <= cfg.otpChallengeMaxAge
    requires now - x.lastSentAt >= cfg.otpResendCooldown && x.sends < cfg.otpMaxSends
    ensures var y := x.(code := code, expiresAt := now + cfg.otpTtl, attempts := 0,
                        sends := x.sends + 1, lastSentAt := now);
      Bounded(cfg, now, y) && RowMoves(cfg, x, y, false)
  {
    Product(x.sends, cfg.otpResendCooldown);
    Product(x.sends, cfg.otpMaxAttempts - 1);
  }

  lemma ResendMoves(cfg: Settings, s: Store, ch: ChallengeId, code: Secret, delivered: bool)
    requires Sensible(cfg) && ChallengesSound(cfg, s)
    ensures var t := ResendChallenge(cfg, s, ch, code, delivered).0;
      ChallengesSound(cfg, t) && Moves(cfg, s, DoResend(ch, code, delivered), t)
  {
    var t := ResendChallenge(cfg, s, ch, code, delivered).0;
    if t.challenges != s.challenges {
      ResentRow(cfg, s.now, s.challenges[ch], code);
    }
  }

  lemma Product(n: int, k: int)
    ensures n * k == (n - 1) * k + k
  {
  }

  lemma WrongCodeRow(cfg: Settings, now: int, x: Challenge, burnt: bool)
    requires Bounded(cfg, now, x) && !x.consumed && (x.attempts + 1 >= cfg.otpMaxAttempts ==> burnt)
    ensures var y := x.(attempts := x.attempts + 1, consumed := burnt);
      Bounded(cfg, now, y) && RowMoves(cfg, x, y, true)
  {
  }

  lemma WrongVerifyMoves(cfg: Settings, s: Store, ch: ChallengeId, code: Secret)
    requires Sensible(cfg) && ChallengesSound(cfg, s) && !Answers(s, ch, code)
    ensures var t := VerifyChallenge(cfg, s, ch, code).0;
      ChallengesSound(cfg, t) && Moves(cfg, s, DoVerify(ch, code), t)
  {
    VerifyAnswers(cfg, s, ch, code);
    var t := VerifyChallenge(cfg, s, ch, code).0;
    if WrongCode(s, DoVerify(ch, code), ch) {
      WrongCodeRow(cfg, s.now, s.challenges[ch], t.challenges[ch].consumed);
    } else {
      UntouchedMoves(cfg, s, DoVerify(ch, code), t);
    }
  }

  lemma RightVerifyMoves(cfg: Settings, s: Store, ch: ChallengeId, code: Secret)
    requires Sensible(cfg) && ChallengesSound(cfg, s) && Answers(s, ch, code)
    ensures var t := VerifyChallenge(cfg, s, ch, code).0;
      && ChallengesSound(cfg, t) && Moves(cfg, s, DoVerify(ch, code), t)
      && t.challenges[ch].consumed
  {
    SignInShape(cfg, s, ch, code);
    var t := VerifyChallenge(cfg, s, ch, code).0;
    var x := s.challenges[ch];
    assert t.challenges == s.challenges[ch := x.(consumed := true)];
    SamePrice(cfg, x, x.(consumed := true));
    assert Bounded(cfg, s.now, x.(consumed := true));
  }

  /** Starting a challenge after a step that left the table alone. */
  lemma StartAfter(cfg: Settings, s: Store, t: Store, r: Request, id: CredentialId, audience: string,
                   code: Secret, delivered: bool)
    requires Sensible(cfg) && Drawn(s) && ChallengesSound(cfg, s) && !r.DoVerify?
    requires t.challenges == s.challenges && t.now == s.now && s.next <= t.next
    ensures var u := StartChallenge(cfg, t, id, audience, code, delivered).0;
      ChallengesSound(cfg, u) && Moves(cfg, s, r, u)
  {
    StartSound(cfg, t, id, audience, code, delivered);
    StartMoves(cfg, t, r, id, audience, code, delivered);
    assert forall ch :: !WrongCode(s, r, ch) && !WrongCode(t, r, ch);
  }

  lemma LoginMoves(cfg: Settings, s: Store, r: Request)
    requires Sensible(cfg) && Drawn(s) && ChallengesSound(cfg, s) && r.DoLogin?
    ensures ChallengesSound(cfg, Handle(cfg, s, r).0) && Moves(cfg, s, r, Handle(cfg, s, r).0)
  {
    var (s1, o) := Authenticate(cfg, s, r.credential, r.password);
    if o.Refused? {
      UntouchedMoves(cfg, s, r, s1);
    } else {
      StartAfter(cfg, s, s1, r, r.credential, r.audience, r.code, r.delivered);
    }
  }

  lemma GoogleMoves(cfg: Settings, s: Store, r: Request)
    requires Sensible(cfg) && Drawn(s) && ChallengesSound(cfg, s) && r.DoGoogleCallback?
    ensures ChallengesSound(cfg, Handle(cfg, s, r).0) && Moves(cfg, s, r, Handle(cfg, s, r).0)
  {
    var (s1, o) := ConsumeState(s, r.state);
    if o.Refused? || r.answer.Rejected? {
      UntouchedMoves(cfg, s, r, s1);
    } else {
      var (s2, id) := UpsertGoogle(s1, r.answer.credential);
      StartAfter(cfg, s, s2, r, id, cfg.defaultAudience, r.code, r.delivered);
    }
  }

  lemma RefreshMoves(cfg: Settings, s: Store, raw: Secret)
    requires ChallengesSound(cfg, s)
    ensures var t := RotateRefresh(cfg, s, raw).0;
      ChallengesSound(cfg, t) && Moves(cfg, s, DoRefresh(raw), t)
  {
    RotateShape(cfg, s, raw);
    UntouchedMoves(cfg, s, DoRefresh(raw), RotateRefresh(cfg, s, raw).0);
  }

  lemma OtherRequestsMove(cfg: Settings, s: Store, r: Request)
    requires ChallengesSound(cfg, s)
    requires !r.DoLogin? && !r.DoVerify? && !r.DoResend? && !r.DoGoogleCallback? && !r.DoRefresh?
    ensures ChallengesSound(cfg, Handle(cfg, s, r).0) && Moves(cfg, s, r, Handle(cfg, s, r).0)
  {
    ClockHolds(cfg, s, r);
    assert Handle(cfg, s, r).0.challenges == s.challenges;
    UntouchedMoves(cfg, s, r, Handle(cfg, s, r).0);
  }

  /** Every request keeps the challenges sound and pays for its wrong code. */
  lemma ChallengeStep(cfg: Settings, s: Store, r: Request)
    requires Sensible(cfg) && Rooted(cfg, s) && ChallengesSound(cfg, s)
    ensures ChallengesSound(cfg, Handle(cfg, s, r).0) && Moves(cfg, s, r, Handle(cfg, s, r).0)
  {
    match r {
      case DoLogin(_, _, _, _, _) => LoginMoves(cfg, s, r);
      case DoVerify(ch, code) =>
        if Answers(s, ch, code) {
          RightVerifyMoves(cfg, s, ch, code);
        } else {
          WrongVerifyMoves(cfg, s, ch, code);
        }
      case DoResend(ch, code, delivered) => ResendMoves(cfg, s, ch, code, delivered);
      case DoGoogleCallback(_, _, _, _) => GoogleMoves(cfg, s, r);
      case DoRefresh(raw) => RefreshMoves(cfg, s, raw);
      case _ => OtherRequestsMove(cfg, s, r);
    }
  }

  // --- Over whole runs ------------------------------------------------------

  ghost function WrongCodes(cfg: Settings, s: Store, es: seq<Event>, ch: ChallengeId): nat
    decreases |es|
  {
    if es == [] then 0
    else
      (if WrongCode(Tick(s, es[0].elapsed), es[0].request, ch) then 1 else 0)
      + WrongCodes(cfg, Step(cfg, s, es[0]).0, es[1..], ch)
  }

  lemma TickSound(cfg: Settings, s: Store, elapsed: nat)
    requires ChallengesSound(cfg, s)
    ensures ChallengesSound(cfg, Tick(s, elapsed))
  {
  }

  /** In every reachable store each challenge is within its clock and counter bounds and a
      credential has at most one open challenge; every wrong code is paid for. */
  lemma {:induction false} ChallengeRun(cfg: Settings, s: Store, es: seq<Event>, ch: ChallengeId)
    requires Sensible(cfg) && Linked(cfg, s) && ChallengesSound(cfg, s)
    ensures ChallengesSound(cfg, Run(cfg, s, es))
    ensures Spent(cfg, s, ch) + WrongCodes(cfg, s, es, ch) <= Spent(cfg, Run(cfg, s, es), ch)
    decreases |es|
  {
    if es != [] {
      var s1 := Tick(s, es[0].elapsed);
      TickKeeps(cfg, s, es[0].elapsed);
      TickSound(cfg, s, es[0].elapsed);
      ChallengeStep(cfg, s1, es[0].request);
      StepKeeps(cfg, s, es[0]);
      assert Spent(cfg, s1, ch) == Spent(cfg, s, ch);
      ChallengeRun(cfg, Step(cfg, s, es[0]).0, es[1..], ch);
    }
  }

  /** The wrong codes evaluated on one challenge over its whole life, however resends and other
      requests interleave. */
  lemma {:induction false} PerChallengeGuessBound(cfg: Settings, s: Store, es: seq<Event>, ch: ChallengeId)
    requires Sensible(cfg) && Linked(cfg, s) && ChallengesSound(cfg, s) && ch !in s.challenges
    ensures WrongCodes(cfg, s, es, ch) <= Spent(cfg, Run(cfg, s, es), ch)
    ensures WrongCodes(cfg, s, es, ch) <= cfg.otpMaxSends * (cfg.otpMaxAttempts - 1) + 1
  {
    ChallengeRun(cfg, s, es, ch);
    PriceCap(cfg, Run(cfg, s, es), ch);
  }

  lemma PriceCap(cfg: Settings, t: Store, ch: ChallengeId)
    requires Sensible(cfg) && AllBounded(cfg, t)
    ensures Spent(cfg, t, ch) <= cfg.otpMaxSends * (cfg.otpMaxAttempts - 1) + 1
  {
    Product(cfg.otpMaxSends, cfg.otpMaxAttempts - 1);
    if ch in t.challenges {
      assert Bounded(cfg, t.now, t.challenges[ch]);
      AtMost(t.challenges[ch].sends, cfg.otpMaxSends, cfg.otpMaxAttempts - 1);
    } else {
      AtMost(1, cfg.otpMaxSends + 1, cfg.otpMaxAttempts - 1);
    }
  }

  lemma AtMost(a: int, b: int, k: int)
    requires a <= b && k >= 0
    ensures (a - 1) * k <= (b - 1) * k
  {
  }

  lemma {:induction false} BirthKept(cfg: Settings, s: Store, es: seq<Event>, ch: ChallengeId)
    requires Sensible(cfg) && Linked(cfg, s) && ChallengesSound(cfg, s) && ch in s.challenges
    ensures ch in Run(cfg, s, es).challenges && Run(cfg, s, es).challenges[ch].createdAt == s.challenges[ch].createdAt
    decreases |es|
  {
    if es != [] {
      TickKeeps(cfg, s, es[0].elapsed);
      TickSound(cfg, s, es[0].elapsed);
      ChallengeStep(cfg, Tick(s, es[0].elapsed), es[0].request);
      StepKeeps(cfg, s, es[0]);
      BirthKept(cfg, Step(cfg, s, es[0]).0, es[1..], ch);
    }
  }

  /** However often an expired challenge is revived, it is answered by a fixed deadline or never. */
  lemma {:induction false} AnsweredByDeadline(cfg: Settings, s: Store, es: seq<Event>, ch: ChallengeId, i: nat)
    requires Sensible(cfg) && Linked(cfg, s) && ChallengesSound(cfg, s) && ch in s.challenges
    requires i < |es| && es[i].request.DoVerify? && es[i].request.challenge == ch
    requires SignsIn(At(cfg, s, es, i), es[i].request)
    ensures At(cfg, s, es, i).now <= s.challenges[ch].createdAt + cfg.otpChallengeMaxAge + cfg.otpTtl
  {
    var t := Run(cfg, s, es[..i]);
    ChallengeRun(cfg, s, es[..i], ch);
    BirthKept(cfg, s, es[..i], ch);
    assert Bounded(cfg, t.now, t.challenges[ch]);
  }

  /** A challenge answers once: consumed rows never change again. */
  lemma {:induction false} ConsumedForGood(cfg: Settings, s: Store, es: seq<Event>, ch: ChallengeId)
    requires Sensible(cfg) && Linked(cfg, s) && ChallengesSound(cfg, s)
    requires ch in s.challenges && s.challenges[ch].consumed
    ensures ch in Run(cfg, s, es).challenges && Run(cfg, s, es).challenges[ch] == s.challenges[ch]
    decreases |es|
  {
    if es != [] {
      TickKeeps(cfg, s, es[0].elapsed);
      TickSound(cfg, s, es[0].elapsed);
      ChallengeStep(cfg, Tick(s, es[0].elapsed), es[0].request);
      StepKeeps(cfg, s, es[0]);
      ConsumedForGood(cfg, Step(cfg, s, es[0]).0, es[1..], ch);
    }
  }
}
