/** The limits of the lockout: where a bound in total exists, and that the bound per stretch is exact.

    The docstring of `verify_challenge` (services.py:415-417) says that possession of the password
    buys a fixed number of guesses in total. A correct password clears the counter (services.py:254),
    so that holds exactly when one wrong guess locks, and a lock lasts: `TotalBoundIff`. With any
    other settings only `Lockout.LockoutBound` is left, per stretch without a success. */
module LockoutLimits {
  import opened Options
  import opened Settings
  import opened Tables
  import opened SignIn
  import opened Machine
  import opened Invariants
  import opened Shapes
  import opened Lockout
  import opened FirstFactor

  /** The settings under which every wrong guess locks for a while (services.py:246-248). */
  predicate EveryGuessLocks(cfg: Settings) {
    cfg.maxFailedLogins <= 1 && cfg.loginLockout >= 1
  }

  // --- Where every guess locks there is a bound in total ----------------------

  /** `g` guesses since `t0` are a lockout apart, and the last one's lock is over or stands. */
  ghost predicate Spaced(cfg: Settings, s: Store, c: CredentialId, t0: int, g: nat) {
    && c in s.credentials && s.credentials[c].failedAttempts >= 0
    && t0 <= s.now
    && (g > 0 ==>
          && s.now >= t0 + (g - 1) * cfg.loginLockout
          && (s.now >= t0 + g * cfg.loginLockout
              || (s.credentials[c].lockedUntil.Some?
                  && s.credentials[c].lockedUntil.value >= t0 + g * cfg.loginLockout)))
  }

  lemma LockedNeverSucceeds(s: Store, r: Request, c: CredentialId)
    requires c in s.credentials && Locked(s.credentials[c], s.now)
    ensures !WrongGuess(s, r, c) && (Success(s, r, c) ==> ResetOf(s, r, c))
  {
  }

  lemma SpacedStep(cfg: Settings, s: Store, r: Request, c: CredentialId, t0: int, g: nat)
    requires EveryGuessLocks(cfg) && Rooted(cfg, s) && Spaced(cfg, s, c, t0, g) && !ResetOf(s, r, c)
    ensures Spaced(cfg, Handle(cfg, s, r).0, c, t0, if WrongGuess(s, r, c) then g + 1 else g)
  {
    CounterMoves(cfg, s, r, c);
    ClockHolds(cfg, s, r);
    if Locked(s.credentials[c], s.now) {
      LockedNeverSucceeds(s, r, c);
    } else if WrongGuess(s, r, c) {
      Distribute(cfg.loginLockout, g);
    }
  }

  lemma SpacedEvent(cfg: Settings, s: Store, e: Event, c: CredentialId, t0: int, g: nat)
    requires EveryGuessLocks(cfg) && Linked(cfg, s) && Spaced(cfg, s, c, t0, g)
    requires !ResetOf(Tick(s, e.elapsed), e.request, c)
    ensures Spaced(cfg, Step(cfg, s, e).0, c, t0, if WrongGuess(Tick(s, e.elapsed), e.request, c) then g + 1 else g)
    ensures Linked(cfg, Step(cfg, s, e).0)
  {
    TickKeeps(cfg, s, e.elapsed);
    SpacedStep(cfg, Tick(s, e.elapsed), e.request, c, t0, g);
    StepKeeps(cfg, s, e);
  }

  lemma {:induction false} SpacedRun(cfg: Settings, s: Store, es: seq<Event>, c: CredentialId, t0: int, g: nat)
    requires EveryGuessLocks(cfg) && Linked(cfg, s) && Spaced(cfg, s, c, t0, g) && NoReset(cfg, s, es, c)
    ensures Spaced(cfg, Run(cfg, s, es), c, t0, g + WrongGuesses(cfg, s, es, c))
    decreases |es|
  {
    if es != [] {
      var s1 := Tick(s, es[0].elapsed);
      NoResetFirst(cfg, s, es, c);
      NoResetLater(cfg, s, es, c);
      SpacedEvent(cfg, s, es[0], c, t0, g);
      SpacedRun(cfg, Step(cfg, s, es[0]).0, es[1..], c, t0, if WrongGuess(s1, es[0].request, c) then g + 1 else g);
    }
  }

  lemma SpacedStart(cfg: Settings, s: Store, c: CredentialId)
    requires c in s.credentials && s.credentials[c].failedAttempts >= 0
    ensures Spaced(cfg, s, c, s.now, 0)
  {
  }

  lemma SpacedFits(cfg: Settings, t: Store, c: CredentialId, t0: int, g: nat)
    requires cfg.loginLockout >= 1 && Spaced(cfg, t, c, t0, g)
    ensures g <= (t.now - t0) / cfg.loginLockout + 1
  {
    if g > 0 {
      Floor(g - 1, cfg.loginLockout, t.now - t0);
    }
  }

  /** Where every guess locks, T seconds have at most floor(T / LOGIN_LOCKOUT_SECONDS) + 1 wrong
      guesses, however many right passwords and right codes come in between. */
  lemma {:induction false} TotalBound(cfg: Settings, s: Store, es: seq<Event>, c: CredentialId)
    requires EveryGuessLocks(cfg) && Linked(cfg, s) && c in s.credentials && s.credentials[c].failedAttempts >= 0
    requires NoReset(cfg, s, es, c)
    ensures WrongGuesses(cfg, s, es, c) <= (Run(cfg, s, es).now - s.now) / cfg.loginLockout + 1
  {
    SpacedStart(cfg, s, c);
    SpacedRun(cfg, s, es, c, s.now, 0);
    SpacedFits(cfg, Run(cfg, s, es), c, s.now, 0 + WrongGuesses(cfg, s, es, c));
  }

  // --- Everywhere else there is none ------------------------------------------

  /** Sign in with the right password, guess the code once and wrong, and begin again. */
  function Rounds(c: CredentialId, password: Secret, audience: string, challenge: ChallengeId, n: nat): seq<Event>
    decreases n
  {
    if n == 0 then []
    else
      [Event(0, DoLogin(c, password, audience, 0, true)), Event(0, DoVerify(challenge, 1))]
      + Rounds(c, password, audience, challenge + 1, n - 1)
  }

  predicate ConfirmsNoReset(es: seq<Event>) {
    forall e | e in es :: !e.request.DoConfirmReset?
  }

  lemma {:induction false} RoundsConfirmNoReset(c: CredentialId, password: Secret, audience: string,
                                                challenge: ChallengeId, n: nat)
    ensures ConfirmsNoReset(Rounds(c, password, audience, challenge, n))
    decreases n
  {
    if n > 0 {
      RoundsConfirmNoReset(c, password, audience, challenge + 1, n - 1);
    }
  }

  /** The credential knows `password`, is enabled, and no lock stands. */
  ghost predicate Open(s: Store, c: CredentialId, password: Secret) {
    Enabled(s, c) && s.credentials[c].password == Some(password) && !Locked(s.credentials[c], s.now)
  }

  lemma LoginOpens(cfg: Settings, s: Store, c: CredentialId, password: Secret, audience: string)
    requires Open(s, c, password)
    ensures var t := Login(cfg, s, c, password, audience, 0, true).0;
      var audience' := cfg.ResolveAudience(audience);
      && Open(t, c, password) && t.credentials[c].failedAttempts == 0
      && t.now == s.now && t.next == s.next + 1
      && s.next in t.challenges
      && t.challenges[s.next] == Challenge(c, 0, audience', s.now + cfg.otpTtl, 0, 1, s.now, false, s.now)
  {
  }

  lemma WrongCodeLeavesOpen(cfg: Settings, s: Store, c: CredentialId, password: Secret, ch: ChallengeId)
    requires !EveryGuessLocks(cfg) && Open(s, c, password) && s.credentials[c].failedAttempts == 0
    requires ch in s.challenges && !s.challenges[ch].consumed && s.now <= s.challenges[ch].expiresAt
    requires s.challenges[ch].credential == c && s.challenges[ch].code != 1
    ensures WrongGuess(s, DoVerify(ch, 1), c)
    ensures var t := VerifyChallenge(cfg, s, ch, 1).0; Open(t, c, password) && t.now == s.now && t.next == s.next
  {
  }

  lemma ZeroTick(s: Store)
    ensures Tick(s, 0) == s
  {
  }

  /** Where one guess does not lock, in no time at all any number of wrong codes is evaluated for a
      holder of the password, and no lock stands at the end. */
  lemma {:induction false} NoBoundInTotal(cfg: Settings, s: Store, c: CredentialId, password: Secret,
                                          audience: string, n: nat)
    requires !EveryGuessLocks(cfg) && cfg.otpTtl >= 0 && Open(s, c, password)
    ensures var es := Rounds(c, password, audience, s.next, n);
      && WrongGuesses(cfg, s, es, c) >= n
      && Run(cfg, s, es).now == s.now
      && Open(Run(cfg, s, es), c, password)
    decreases n
  {
    if n > 0 {
      var es, rest := Rounds(c, password, audience, s.next, n), Rounds(c, password, audience, s.next + 1, n - 1);
      var s1 := Login(cfg, s, c, password, audience, 0, true).0;
      var s2 := VerifyChallenge(cfg, s1, s.next, 1).0;
      LoginOpens(cfg, s, c, password, audience);
      WrongCodeLeavesOpen(cfg, s1, c, password, s.next);
      NoBoundInTotal(cfg, s2, c, password, audience, n - 1);
      ZeroTick(s);
      ZeroTick(s1);
      assert es[1..] == [es[1]] + rest;
      assert es[1..][1..] == rest;
      assert Step(cfg, s, es[0]).0 == s1;
      assert Step(cfg, s1, es[1]).0 == s2;
    }
  }

  // --- So the settings decide -------------------------------------------------

  /** No run of at most `span` seconds without a confirmed reset evaluates more than `n` wrong
      guesses for `c`, whatever succeeds in between. */
  ghost predicate Caps(cfg: Settings, s: Store, c: CredentialId, span: nat, n: nat) {
    forall es | NoReset(cfg, s, es, c) && Run(cfg, s, es).now - s.now <= span :: WrongGuesses(cfg, s, es, c) <= n
  }

  lemma GuessesAreCapped(cfg: Settings, s: Store, c: CredentialId, span: nat)
    requires EveryGuessLocks(cfg) && Linked(cfg, s) && c in s.credentials && s.credentials[c].failedAttempts >= 0
    ensures Caps(cfg, s, c, span, span / cfg.loginLockout + 1)
  {
    forall es | NoReset(cfg, s, es, c) && Run(cfg, s, es).now - s.now <= span
      ensures WrongGuesses(cfg, s, es, c) <= span / cfg.loginLockout + 1
    {
      TotalBound(cfg, s, es, c);
      ClockGrows(cfg, s, es);
      FloorMonotone(Run(cfg, s, es).now - s.now, span, cfg.loginLockout);
    }
  }

  lemma FloorMonotone(a: nat, b: nat, l: int)
    requires a <= b && l >= 1
    ensures a / l <= b / l
  {
    Floor(a / l, l, b);
  }

  lemma GuessesAreNotCapped(cfg: Settings, s: Store, c: CredentialId, password: Secret, span: nat, n: nat)
    requires !EveryGuessLocks(cfg) && cfg.otpTtl >= 0 && Open(s, c, password)
    ensures !Caps(cfg, s, c, span, n)
  {
    var es := Rounds(c, password, "", s.next, n + 1);
    NoBoundInTotal(cfg, s, c, password, "", n + 1);
    RoundsConfirmNoReset(c, password, "", s.next, n + 1);
    assert NoReset(cfg, s, es, c);
  }

  /** For whoever has the password of an open credential, and whatever the length of time, the wrong
      guesses are bounded if and only if every wrong guess locks. */
  lemma TotalBoundIff(cfg: Settings, s: Store, c: CredentialId, password: Secret, span: nat)
    requires Linked(cfg, s) && cfg.otpTtl >= 0 && Open(s, c, password) && s.credentials[c].failedAttempts >= 0
    ensures (exists n: nat :: Caps(cfg, s, c, span, n)) <==> EveryGuessLocks(cfg)
  {
    if EveryGuessLocks(cfg) {
      GuessesAreCapped(cfg, s, c, span);
    } else {
      forall n: nat ensures !Caps(cfg, s, c, span, n) {
        GuessesAreNotCapped(cfg, s, c, password, span, n);
      }
    }
  }

  // --- The bound is reached ---------------------------------------------------

  function WrongLogin(c: CredentialId, wrong: Secret, elapsed: nat): Event {
    Event(elapsed, DoLogin(c, wrong, "", 0, true))
  }

  /** `n` wrong passwords, the first after a pause, the rest at once. */
  function Burst(c: CredentialId, wrong: Secret, pause: nat, n: nat): seq<Event> {
    if n == 0 then [] else [WrongLogin(c, wrong, pause)] + Burst(c, wrong, 0, n - 1)
  }

  /** `k` bursts of `n`, a pause before each. */
  function Siege(c: CredentialId, wrong: Secret, first: nat, pause: nat, n: nat, k: nat): seq<Event>
    decreases k
  {
    if k == 0 then [] else Burst(c, wrong, first, n) + Siege(c, wrong, pause, pause, n, k - 1)
  }

  /** The credential is enabled, does not have `wrong` as its password, has `failed` failures
      counted and is not locked once `pause` seconds have passed. */
  ghost predicate Besieged(s: Store, c: CredentialId, wrong: Secret, failed: int, pause: nat) {
    && Enabled(s, c) && s.credentials[c].password != Some(wrong)
    && s.credentials[c].failedAttempts == failed
    && !Locked(s.credentials[c], s.now + pause)
  }

  lemma WrongLoginStep(cfg: Settings, s: Store, c: CredentialId, wrong: Secret, failed: int, pause: nat)
    requires cfg.loginLockout >= 0 && 0 <= failed < cfg.maxFailedLogins && Besieged(s, c, wrong, failed, pause)
    ensures WrongGuess(Tick(s, pause), WrongLogin(c, wrong, pause).request, c)
    ensures var t := Step(cfg, s, WrongLogin(c, wrong, pause)).0;
      && t.now == s.now + pause
      && if failed + 1 < cfg.maxFailedLogins then Besieged(t, c, wrong, failed + 1, 0)
         else Besieged(t, c, wrong, 0, cfg.loginLockout)
  {
  }

  /** A burst that fills the counter is evaluated to the last guess. */
  lemma {:induction false} BurstEvaluated(cfg: Settings, s: Store, c: CredentialId, wrong: Secret,
                                          failed: nat, pause: nat, n: nat)
    requires cfg.loginLockout >= 0 && n >= 1 && failed + n == cfg.maxFailedLogins
    requires Besieged(s, c, wrong, failed, pause)
    ensures var es := Burst(c, wrong, pause, n);
      && WrongGuesses(cfg, s, es, c) == n
      && Run(cfg, s, es).now == s.now + pause
      && Besieged(Run(cfg, s, es), c, wrong, 0, cfg.loginLockout)
    decreases n
  {
    var es := Burst(c, wrong, pause, n);
    var t := Step(cfg, s, es[0]).0;
    WrongLoginStep(cfg, s, c, wrong, failed, pause);
    assert es[1..] == Burst(c, wrong, 0, n - 1);
    if n > 1 {
      BurstEvaluated(cfg, t, c, wrong, failed + 1, 0, n - 1);
    }
  }

  lemma {:induction false} RunConcat(cfg: Settings, s: Store, a: seq<Event>, b: seq<Event>, c: CredentialId)
    ensures Run(cfg, s, a + b) == Run(cfg, Run(cfg, s, a), b)
    ensures WrongGuesses(cfg, s, a + b, c) == WrongGuesses(cfg, s, a, c) + WrongGuesses(cfg, Run(cfg, s, a), b, c)
    decreases |a|
  {
    if a == [] {
      assert a + b == b;
    } else {
      assert (a + b)[1..] == a[1..] + b;
      RunConcat(cfg, Step(cfg, s, a[0]).0, a[1..], b, c);
    }
  }

  lemma {:induction false} SiegeEvaluated(cfg: Settings, s: Store, c: CredentialId, wrong: Secret, first: nat, k: nat)
    requires cfg.loginLockout >= 0 && cfg.maxFailedLogins >= 1 && Besieged(s, c, wrong, 0, first)
    ensures var es := Siege(c, wrong, first, cfg.loginLockout, cfg.maxFailedLogins, k);
      && WrongGuesses(cfg, s, es, c) == k * cfg.maxFailedLogins
      && (k > 0 ==> Run(cfg, s, es).now == s.now + first + (k - 1) * cfg.loginLockout)
    decreases k
  {
    if k > 0 {
      var m, l := cfg.maxFailedLogins, cfg.loginLockout;
      var head, tail := Burst(c, wrong, first, m), Siege(c, wrong, l, l, m, k - 1);
      BurstEvaluated(cfg, s, c, wrong, 0, first, m);
      SiegeEvaluated(cfg, Run(cfg, s, head), c, wrong, l, k - 1);
      RunConcat(cfg, s, head, tail, c);
      Distribute(m, k - 1);
      if k > 1 {
        Distribute(l, k - 2);
      }
    }
  }

  ghost predicate AllWrong(es: seq<Event>, c: CredentialId, wrong: Secret) {
    forall i | 0 <= i < |es| :: es[i].request == WrongLogin(c, wrong, 0).request
  }

  lemma {:induction false} SiegeIsAllWrong(c: CredentialId, wrong: Secret, first: nat, pause: nat, n: nat, k: nat)
    ensures AllWrong(Siege(c, wrong, first, pause, n, k), c, wrong)
    decreases k
  {
    if k > 0 {
      BurstIsAllWrong(c, wrong, first, n);
      SiegeIsAllWrong(c, wrong, pause, pause, n, k - 1);
    }
  }

  lemma {:induction false} BurstIsAllWrong(c: CredentialId, wrong: Secret, pause: nat, n: nat)
    ensures AllWrong(Burst(c, wrong, pause, n), c, wrong)
    decreases n
  {
    if n > 0 {
      BurstIsAllWrong(c, wrong, 0, n - 1);
    }
  }

  lemma WrongLoginKeepsPassword(cfg: Settings, s: Store, c: CredentialId, wrong: Secret, elapsed: nat)
    requires c in s.credentials && s.credentials[c].password != Some(wrong)
    ensures var t := Step(cfg, s, WrongLogin(c, wrong, elapsed)).0;
      c in t.credentials && t.credentials[c].password != Some(wrong)
  {
  }

  lemma {:induction false} AllWrongNeverSucceeds(cfg: Settings, s: Store, es: seq<Event>,
                                                 c: CredentialId, wrong: Secret)
    requires c in s.credentials && s.credentials[c].password != Some(wrong) && AllWrong(es, c, wrong)
    ensures NoSuccess(cfg, s, es, c)
    decreases |es|
  {
    if es != [] {
      var t := Step(cfg, s, es[0]).0;
      assert es[0] == WrongLogin(c, wrong, es[0].elapsed);
      WrongLoginKeepsPassword(cfg, s, c, wrong, es[0].elapsed);
      AllWrongNeverSucceeds(cfg, t, es[1..], c, wrong);
      forall i | 0 <= i < |es| ensures !Success(At(cfg, s, es, i), es[i].request, c) {
        if i > 0 {
          AtShift(cfg, s, es, i - 1);
          assert !Success(At(cfg, t, es[1..], i - 1), es[1..][i - 1].request, c);
        } else {
          assert At(cfg, s, es, 0) == Tick(s, es[0].elapsed);
        }
      }
    }
  }

  lemma WholeLockouts(k: nat, l: int)
    requires l >= 1
    ensures (k * l) / l == k
  {
    var q := (k * l) / l;
    Floor(k, l, k * l);
    Distribute(l, k);
    if q >= k + 1 {
      Monotone(k + 1, q, l);
    }
  }

  /** The lockout bound cannot be improved: for every number of lockouts there is a stretch of
      exactly that length, without a success, whose wrong guesses number exactly the bound. */
  lemma LockoutBoundIsReached(cfg: Settings, s: Store, c: CredentialId, wrong: Secret, k: nat)
    requires cfg.loginLockout >= 1 && cfg.maxFailedLogins >= 1 && Besieged(s, c, wrong, 0, 0)
    ensures var es := Siege(c, wrong, 0, cfg.loginLockout, cfg.maxFailedLogins, k + 1);
      && NoSuccess(cfg, s, es, c)
      && Run(cfg, s, es).now - s.now == k * cfg.loginLockout
      && WrongGuesses(cfg, s, es, c) == GuessCap(cfg, Run(cfg, s, es).now - s.now)
  {
    SiegeIsAllWrong(c, wrong, 0, cfg.loginLockout, cfg.maxFailedLogins, k + 1);
    AllWrongNeverSucceeds(cfg, s, Siege(c, wrong, 0, cfg.loginLockout, cfg.maxFailedLogins, k + 1), c, wrong);
    SiegeEvaluated(cfg, s, c, wrong, 0, k + 1);
    WholeLockouts(k, cfg.loginLockout);
    Commute(k + 1, cfg.maxFailedLogins);
  }

  // --- The lockout is blind to a disabled credential --------------------------

  /** `c` is disabled, not locked, and as `row` has it. */
  ghost predicate DisabledAs(s: Store, c: CredentialId, row: Credential) {
    && IsDisabled(s, c) && !Locked(s.credentials[c], s.now)
    && SameCounter(s.credentials[c], row) && s.credentials[c].password == row.password
  }

  lemma DisabledStep(cfg: Settings, s: Store, e: Event, c: CredentialId, row: Credential)
    requires Linked(cfg, s) && DisabledAs(s, c, row) && !ResetOf(Tick(s, e.elapsed), e.request, c)
    ensures DisabledAs(Step(cfg, s, e).0, c, row)
  {
    var s1 := Tick(s, e.elapsed);
    TickKeeps(cfg, s, e.elapsed);
    CounterMoves(cfg, s1, e.request, c);
    PasswordKept(cfg, s1, e.request, c);
    ClockHolds(cfg, s1, e.request);
    HandleKeepsStanding(cfg, s1, e.request);
  }

  /** What a login of a disabled credential answers: whether the password was right. */
  function Verdict(row: Credential, password: Secret): Outcome {
    Refused(if row.password == Some(password) then AccountDisabled else InvalidCredentials)
  }

  lemma DisabledAnswers(cfg: Settings, s: Store, r: Request, c: CredentialId, row: Credential)
    requires DisabledAs(s, c, row) && r.DoLogin? && r.credential == c
    ensures Handle(cfg, s, r).1 == Verdict(row, r.password)
  {
  }

  /** In every run without a confirmed reset, however many passwords are tried and however fast, each
      login of a disabled unlocked credential is told whether its password was right, and none of
      them is counted. */
  lemma {:induction false} DisabledIsNeverCounted(cfg: Settings, s: Store, es: seq<Event>,
                                                  c: CredentialId, row: Credential)
    requires Linked(cfg, s) && DisabledAs(s, c, row) && NoReset(cfg, s, es, c)
    ensures DisabledAs(Run(cfg, s, es), c, row)
    ensures |Outcomes(cfg, s, es)| == |es|
    ensures forall i | 0 <= i < |es| && es[i].request.DoLogin? && es[i].request.credential == c ::
      Outcomes(cfg, s, es)[i] == Verdict(row, es[i].request.password)
    decreases |es|
  {
    if es != [] {
      var t, rest := Step(cfg, s, es[0]).0, es[1..];
      NoResetFirst(cfg, s, es, c);
      NoResetLater(cfg, s, es, c);
      DisabledStep(cfg, s, es[0], c, row);
      StepKeeps(cfg, s, es[0]);
      DisabledIsNeverCounted(cfg, t, rest, c, row);
      if es[0].request.DoLogin? && es[0].request.credential == c {
        DisabledAnswers(cfg, Tick(s, es[0].elapsed), es[0].request, c, row);
      }
      assert Outcomes(cfg, s, es) == [Step(cfg, s, es[0]).1] + Outcomes(cfg, t, rest);
    }
  }
}
