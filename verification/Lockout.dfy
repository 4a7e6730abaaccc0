/** The shared lockout: how many wrong guesses a credential can be made to evaluate, and what a
    lock forbids (services.py:227-256, 426-448). */
module Lockout {
  import opened Options
  import opened Settings
  import opened Tables
  import opened SignIn
  import opened Accounts
  import opened Machine
  import opened Invariants
  import opened Shapes

  /** The request makes the service compare a wrong password or a wrong code for an enabled,
      unlocked credential. */
  ghost predicate WrongGuess(s: Store, r: Request, c: CredentialId) {
    && Enabled(s, c) && !Locked(s.credentials[c], s.now)
    && match r
       case DoLogin(id, password, _, _, _) => id == c && s.credentials[c].password != Some(password)
       case DoVerify(ch, code) =>
         && ch in s.challenges && s.challenges[ch].credential == c
         && !s.challenges[ch].consumed && s.now <= s.challenges[ch].expiresAt && s.challenges[ch].code != code
       case _ => false
  }

  ghost predicate RightPassword(s: Store, r: Request, c: CredentialId) {
    && r.DoLogin? && r.credential == c
    && Enabled(s, c) && !Locked(s.credentials[c], s.now) && s.credentials[c].password == Some(r.password)
  }

  ghost predicate RightCode(s: Store, r: Request, c: CredentialId) {
    SignsIn(s, r) && s.challenges[r.challenge].credential == c
  }

  ghost predicate ResetOf(s: Store, r: Request, c: CredentialId) {
    r.DoConfirmReset? && ResetUsable(s, r.raw) && s.resets[r.raw].credential == c
  }

  ghost predicate Success(s: Store, r: Request, c: CredentialId) {
    RightPassword(s, r, c) || RightCode(s, r, c) || ResetOf(s, r, c)
  }

  ghost predicate SameCounter(a: Credential, b: Credential) {
    a.failedAttempts == b.failedAttempts && a.lockedUntil == b.lockedUntil
  }

  /** What a request does to the counter and deadline of `c`, given what kind of request it is. */
  ghost predicate Counted(cfg: Settings, s: Store, r: Request, c: CredentialId, t: Store)
    requires c in s.credentials
  {
    && c in t.credentials
    && SameCounter(t.credentials[c],
                   if WrongGuess(s, r, c) then CountFailure(cfg, s.credentials[c], s.now)
                   else if Success(s, r, c) then ClearFailures(s.credentials[c])
                   else s.credentials[c])
  }

  lemma StartChallengeKeepsCredentials(cfg: Settings, s: Store, id: CredentialId, audience: string,
                                       code: Secret, delivered: bool)
    ensures StartChallenge(cfg, s, id, audience, code, delivered).0.credentials == s.credentials
  {
  }

  lemma AuthenticateCounted(cfg: Settings, s: Store, r: Request, c: CredentialId)
    requires c in s.credentials && r.DoLogin?
    ensures Counted(cfg, s, r, c, Authenticate(cfg, s, r.credential, r.password).0)
  {
  }

  lemma LoginCredentials(cfg: Settings, s: Store, id: CredentialId, password: Secret, audience: string,
                         code: Secret, delivered: bool)
    ensures Login(cfg, s, id, password, audience, code, delivered).0.credentials
         == Authenticate(cfg, s, id, password).0.credentials
  {
    StartChallengeKeepsCredentials(cfg, Authenticate(cfg, s, id, password).0, id, audience, code, delivered);
  }

  lemma LoginCounted(cfg: Settings, s: Store, r: Request, c: CredentialId)
    requires c in s.credentials && r.DoLogin?
    ensures Counted(cfg, s, r, c, Handle(cfg, s, r).0)
  {
    AuthenticateCounted(cfg, s, r, c);
    LoginCredentials(cfg, s, r.credential, r.password, r.audience, r.code, r.delivered);
  }

  lemma VerifyCounted(cfg: Settings, s: Store, r: Request, c: CredentialId)
    requires c in s.credentials && r.DoVerify?
    ensures Counted(cfg, s, r, c, Handle(cfg, s, r).0)
  {
    if SignsIn(s, r) {
      SignInShape(cfg, s, r.challenge, r.code);
    }
  }

  lemma GoogleCounted(cfg: Settings, s: Store, r: Request, c: CredentialId)
    requires Rooted(cfg, s) && c in s.credentials && r.DoGoogleCallback?
    ensures Counted(cfg, s, r, c, Handle(cfg, s, r).0)
  {
    var s1 := ConsumeState(s, r.state).0;
    if r.answer.Identity? {
      var (s2, id) := UpsertGoogle(s1, r.answer.credential);
      StartChallengeKeepsCredentials(cfg, s2, id, cfg.defaultAudience, r.code, r.delivered);
    }
  }

  lemma RefreshCounted(cfg: Settings, s: Store, r: Request, c: CredentialId)
    requires c in s.credentials && r.DoRefresh?
    ensures Counted(cfg, s, r, c, Handle(cfg, s, r).0)
  {
    RotateKeepsStanding(cfg, s, r.raw);
  }

  lemma ResetCounted(cfg: Settings, s: Store, r: Request, c: CredentialId)
    requires c in s.credentials && r.DoConfirmReset?
    ensures Counted(cfg, s, r, c, Handle(cfg, s, r).0)
  {
  }

  lemma UncountedRequests(cfg: Settings, s: Store, r: Request, c: CredentialId)
    requires Drawn(s) && c in s.credentials
    requires r.DoSignUp? || r.DoResend? || r.DoLogout? || r.DoLogoutAll? || r.DoRequestReset? || r.DoGoogleStart?
             || r.DoPurgeStates? || r.DoDisable?
    ensures Counted(cfg, s, r, c, Handle(cfg, s, r).0)
  {
  }

  /** Wrong guesses count, successes clear, and nothing else touches the counter. */
  lemma CounterMoves(cfg: Settings, s: Store, r: Request, c: CredentialId)
    requires Rooted(cfg, s) && c in s.credentials
    ensures Counted(cfg, s, r, c, Handle(cfg, s, r).0)
  {
    match r {
      case DoLogin(_, _, _, _, _) => LoginCounted(cfg, s, r, c);
      case DoVerify(_, _) => VerifyCounted(cfg, s, r, c);
      case DoGoogleCallback(_, _, _, _) => GoogleCounted(cfg, s, r, c);
      case DoRefresh(_) => RefreshCounted(cfg, s, r, c);
      case DoConfirmReset(_, _) => ResetCounted(cfg, s, r, c);
      case _ => UncountedRequests(cfg, s, r, c);
    }
  }

  /** The counter of `c` is below the ceiling. */
  ghost predicate BelowCeiling(cfg: Settings, s: Store, c: CredentialId) {
    c in s.credentials && 0 <= s.credentials[c].failedAttempts < cfg.maxFailedLogins
  }

  /** The counter of `c` is below the ceiling, or `c` is yet to be created and there is room below it. */
  ghost predicate RoomFor(cfg: Settings, s: Store, c: CredentialId) {
    if c in s.credentials then BelowCeiling(cfg, s, c) else cfg.maxFailedLogins >= 1
  }

  lemma VerifyAddsNobody(cfg: Settings, s: Store, ch: ChallengeId, code: Secret)
    requires Rooted(cfg, s)
    ensures VerifyChallenge(cfg, s, ch, code).0.credentials.Keys == s.credentials.Keys
  {
    VerifyAnswers(cfg, s, ch, code);
    if Answers(s, ch, code) {
      SignInShape(cfg, s, ch, code);
    }
  }

  lemma OtherNewcomers(cfg: Settings, s: Store, r: Request)
    requires !r.DoLogin? && !r.DoVerify? && !r.DoGoogleCallback? && !r.DoRefresh?
    ensures forall c | c in Handle(cfg, s, r).0.credentials && c !in s.credentials ::
      Handle(cfg, s, r).0.credentials[c].failedAttempts == 0
  {
  }

  /** A credential created by a request has no failure against it. */
  lemma NewcomersAreClean(cfg: Settings, s: Store, r: Request)
    requires Rooted(cfg, s)
    ensures forall c | c in Handle(cfg, s, r).0.credentials && c !in s.credentials ::
      Handle(cfg, s, r).0.credentials[c].failedAttempts == 0
  {
    match r {
      case DoLogin(id, password, audience, code, delivered) =>
        LoginCredentials(cfg, s, id, password, audience, code, delivered);
      case DoVerify(ch, code) => VerifyAddsNobody(cfg, s, ch, code);
      case DoGoogleCallback(state, answer, code, delivered) => GoogleNewcomers(cfg, s, r);
      case DoRefresh(raw) => RotateKeepsStanding(cfg, s, raw);
      case _ => OtherNewcomers(cfg, s, r);
    }
  }

  lemma GoogleNewcomers(cfg: Settings, s: Store, r: Request)
    requires r.DoGoogleCallback?
    ensures forall c | c in Handle(cfg, s, r).0.credentials && c !in s.credentials ::
      Handle(cfg, s, r).0.credentials[c].failedAttempts == 0
  {
    var s1 := ConsumeState(s, r.state).0;
    if r.answer.Identity? {
      var (s2, id) := UpsertGoogle(s1, r.answer.credential);
      StartChallengeKeepsCredentials(cfg, s2, id, cfg.defaultAudience, r.code, r.delivered);
    }
  }

  lemma CeilingStep(cfg: Settings, s: Store, r: Request, c: CredentialId)
    requires Rooted(cfg, s) && RoomFor(cfg, s, c)
    ensures RoomFor(cfg, Handle(cfg, s, r).0, c)
  {
    if c in s.credentials {
      CounterMoves(cfg, s, r, c);
    } else {
      NewcomersAreClean(cfg, s, r);
    }
  }

  /** `failed_attempts` stays below the ceiling after every step, for every credential of the run,
      those created on the way included. */
  lemma {:induction false} CounterBelowCeiling(cfg: Settings, s: Store, es: seq<Event>, c: CredentialId)
    requires Linked(cfg, s) && RoomFor(cfg, s, c)
    ensures c in Run(cfg, s, es).credentials ==> BelowCeiling(cfg, Run(cfg, s, es), c)
    decreases |es|
  {
    if es != [] {
      TickKeeps(cfg, s, es[0].elapsed);
      assert RoomFor(cfg, Tick(s, es[0].elapsed), c);
      CeilingStep(cfg, Tick(s, es[0].elapsed), es[0].request, c);
      StepKeeps(cfg, s, es[0]);
      CounterBelowCeiling(cfg, Step(cfg, s, es[0]).0, es[1..], c);
    }
  }

  // --- The guess bound ------------------------------------------------------

  /** How many wrong guesses a run makes the service evaluate for `c`. */
  ghost function WrongGuesses(cfg: Settings, s: Store, es: seq<Event>, c: CredentialId): nat
    decreases |es|
  {
    if es == [] then 0
    else
      (if WrongGuess(Tick(s, es[0].elapsed), es[0].request, c) then 1 else 0)
      + WrongGuesses(cfg, Step(cfg, s, es[0]).0, es[1..], c)
  }

  /** No password, code or reset succeeds for `c` in the run. */
  ghost predicate NoSuccess(cfg: Settings, s: Store, es: seq<Event>, c: CredentialId) {
    forall i | 0 <= i < |es| :: !Success(At(cfg, s, es, i), es[i].request, c)
  }

  /** No reset of `c` is confirmed in the run. */
  ghost predicate NoReset(cfg: Settings, s: Store, es: seq<Event>, c: CredentialId) {
    forall i | 0 <= i < |es| :: !ResetOf(At(cfg, s, es, i), es[i].request, c)
  }

  lemma {:induction false} NoResetFirst(cfg: Settings, s: Store, es: seq<Event>, c: CredentialId)
    requires es != [] && NoReset(cfg, s, es, c)
    ensures !ResetOf(Tick(s, es[0].elapsed), es[0].request, c)
  {
    assert At(cfg, s, es, 0) == Tick(s, es[0].elapsed);
  }

  lemma {:induction false} NoResetLater(cfg: Settings, s: Store, es: seq<Event>, c: CredentialId)
    requires es != [] && NoReset(cfg, s, es, c)
    ensures NoReset(cfg, Step(cfg, s, es[0]).0, es[1..], c)
  {
    var t := Step(cfg, s, es[0]).0;
    forall i | 0 <= i < |es[1..]| ensures !ResetOf(At(cfg, t, es[1..], i), es[1..][i].request, c) {
      AtShift(cfg, s, es, i);
      assert !ResetOf(At(cfg, s, es, i + 1), es[i + 1].request, c);
    }
  }

  /** `g` guesses since `t0` have set `k` locks, each a lockout apart. */
  ghost predicate Budget(cfg: Settings, s: Store, c: CredentialId, t0: int, g: nat, k: nat) {
    && BelowCeiling(cfg, s, c)
    && t0 <= s.now
    && g <= k * cfg.maxFailedLogins + s.credentials[c].failedAttempts
    && (k > 0 ==>
          && s.credentials[c].lockedUntil.Some?
          && s.credentials[c].lockedUntil.value >= t0 + k * cfg.loginLockout
          && s.now >= t0 + (k - 1) * cfg.loginLockout
          && (s.credentials[c].failedAttempts > 0 ==> s.now >= t0 + k * cfg.loginLockout))
  }

  lemma Distribute(a: int, k: int)
    ensures (k + 1) * a == k * a + a
  {
  }

  lemma BudgetStep(cfg: Settings, s: Store, r: Request, c: CredentialId, t0: int, g: nat, k: nat)
    returns (k': nat)
    requires cfg.loginLockout >= 0 && Rooted(cfg, s) && Budget(cfg, s, c, t0, g, k) && !Success(s, r, c)
    requires Handle(cfg, s, r).0.now == s.now
    ensures Budget(cfg, Handle(cfg, s, r).0, c, t0, if WrongGuess(s, r, c) then g + 1 else g, k')
  {
    CounterMoves(cfg, s, r, c);
    k' := k;
    if WrongGuess(s, r, c) && s.credentials[c].failedAttempts + 1 >= cfg.maxFailedLogins {
      k' := k + 1;
      Distribute(cfg.maxFailedLogins, k);
      Distribute(cfg.loginLockout, k);
    }
  }

  lemma {:induction false} BudgetRun(cfg: Settings, s: Store, es: seq<Event>, c: CredentialId, t0: int, g: nat, k: nat)
    returns (k': nat)
    requires cfg.loginLockout >= 0 && Linked(cfg, s) && Budget(cfg, s, c, t0, g, k)
    requires NoSuccess(cfg, s, es, c)
    ensures Budget(cfg, Run(cfg, s, es), c, t0, g + WrongGuesses(cfg, s, es, c), k')
    decreases |es|
  {
    k' := k;
    if es != [] {
      var e := es[0];
      var s1, t := Tick(s, e.elapsed), Step(cfg, s, e).0;
      TickKeeps(cfg, s, e.elapsed);
      ClockHolds(cfg, s1, e.request);
      assert !Success(s1, e.request, c) by {
        assert s1 == At(cfg, s, es, 0);
      }
      k' := BudgetStep(cfg, s1, e.request, c, t0, g, k);
      StepKeeps(cfg, s, e);
      forall i | 0 <= i < |es[1..]| ensures !Success(At(cfg, t, es[1..], i), es[1..][i].request, c) {
        AtShift(cfg, s, es, i);
        assert !Success(At(cfg, s, es, i + 1), es[i + 1].request, c);
      }
      var g' := if WrongGuess(s1, e.request, c) then g + 1 else g;
      k' := BudgetRun(cfg, t, es[1..], c, t0, g', k');
    }
  }

  lemma Floor(k: nat, l: int, t: nat)
    requires l >= 1 && k * l <= t
    ensures k <= t / l
  {
    var q := t / l;
    Distribute(l, q);
    if k >= q + 1 {
      Monotone(q + 1, k, l);
    }
  }

  lemma Monotone(a: int, b: int, l: int)
    requires a <= b && l >= 0
    ensures a * l <= b * l
  {
  }

  /** The arithmetic of the bound: `k` locks a lockout apart fit into `t` seconds. */
  lemma LocksFit(m: nat, l: int, t: nat, k: nat, failed: nat, g: nat)
    requires l >= 1 && failed < m && g <= k * m + failed
    requires k > 0 ==> (k - 1) * l <= t && (failed > 0 ==> k * l <= t)
    ensures g <= m * (t / l + 1)
  {
    var q := t / l;
    if k > 0 {
      Floor(k - 1, l, t);
    }
    if k > 0 && failed > 0 {
      Floor(k, l, t);
    }
    var full := if failed > 0 then k + 1 else k;
    Distribute(m, k);
    assert g <= full * m;
    Monotone(full, q + 1, m);
    Commute(q + 1, m);
  }

  lemma Commute(a: int, b: int)
    ensures a * b == b * a
  {
  }

  /** MAX_FAILED_LOGINS * (floor(T / LOGIN_LOCKOUT_SECONDS) + 1) */
  function GuessCap(cfg: Settings, seconds: int): int
    requires cfg.loginLockout >= 1
  {
    cfg.maxFailedLogins * (seconds / cfg.loginLockout + 1)
  }

  lemma BudgetStart(cfg: Settings, s: Store, c: CredentialId)
    requires BelowCeiling(cfg, s, c)
    ensures Budget(cfg, s, c, s.now, 0, 0)
  {
  }

  lemma {:induction false} BudgetWhole(cfg: Settings, s: Store, es: seq<Event>, c: CredentialId) returns (k: nat)
    requires cfg.loginLockout >= 0 && Linked(cfg, s) && BelowCeiling(cfg, s, c) && NoSuccess(cfg, s, es, c)
    ensures Budget(cfg, Run(cfg, s, es), c, s.now, WrongGuesses(cfg, s, es, c), k)
  {
    BudgetStart(cfg, s, c);
    k := BudgetRun(cfg, s, es, c, s.now, 0, 0);
  }

  lemma BudgetFits(cfg: Settings, t: Store, c: CredentialId, t0: int, g: nat, k: nat)
    requires cfg.loginLockout >= 1 && Budget(cfg, t, c, t0, g, k)
    ensures g <= GuessCap(cfg, t.now - t0)
  {
    LocksFit(cfg.maxFailedLogins, cfg.loginLockout, t.now - t0, k, t.credentials[c].failedAttempts, g);
  }

  /** Over any stretch of T seconds without a success, at most
      MAX_FAILED_LOGINS * (floor(T / LOGIN_LOCKOUT_SECONDS) + 1) wrong guesses are evaluated for
      a credential, passwords and codes together, whatever else runs in between. */
  lemma {:induction false} LockoutBound(cfg: Settings, s: Store, es: seq<Event>, c: CredentialId)
    requires cfg.loginLockout >= 1
    requires Linked(cfg, s) && BelowCeiling(cfg, s, c)
    requires NoSuccess(cfg, s, es, c)
    ensures Run(cfg, s, es).now >= s.now
    ensures WrongGuesses(cfg, s, es, c) <= GuessCap(cfg, Run(cfg, s, es).now - s.now)
  {
    ClockGrows(cfg, s, es);
    var k := BudgetWhole(cfg, s, es, c);
    BudgetFits(cfg, Run(cfg, s, es), c, s.now, WrongGuesses(cfg, s, es, c), k);
  }

  // --- What a lock forbids --------------------------------------------------

  /** Neither a password nor a code gets anywhere for `c`. */
  ghost predicate Barred(cfg: Settings, s: Store, r: Request, c: CredentialId) {
    && (r.DoLogin? && r.credential == c ==> Handle(cfg, s, r).1 == Refused(AccountLocked))
    && (r.DoVerify? && r.challenge in s.challenges && s.challenges[r.challenge].credential == c ==>
          Handle(cfg, s, r).1.Refused?)
  }

  lemma LockBars(cfg: Settings, s: Store, r: Request, c: CredentialId)
    requires c in s.credentials && Locked(s.credentials[c], s.now)
    ensures Barred(cfg, s, r, c)
  {
    if r.DoVerify? {
      VerifyAnswers(cfg, s, r.challenge, r.code);
    }
  }

  /** Until its deadline, and unless a reset is confirmed, a lock turns every password and every
      code of the credential away and its counter and deadline do not move. */
  lemma {:induction false} LockHolds(cfg: Settings, s: Store, es: seq<Event>, c: CredentialId)
    requires Linked(cfg, s) && c in s.credentials
    requires Locked(s.credentials[c], Run(cfg, s, es).now)
    requires NoReset(cfg, s, es, c)
    ensures c in Run(cfg, s, es).credentials && SameCounter(s.credentials[c], Run(cfg, s, es).credentials[c])
    ensures forall i | 0 <= i < |es| :: Barred(cfg, At(cfg, s, es, i), es[i].request, c)
    decreases |es|
  {
    if es != [] {
      var e := es[0];
      var s1, t := Tick(s, e.elapsed), Step(cfg, s, e).0;
      TickKeeps(cfg, s, e.elapsed);
      ClockHolds(cfg, s1, e.request);
      ClockGrows(cfg, t, es[1..]);
      assert s1 == At(cfg, s, es, 0);
      LockBars(cfg, s1, e.request, c);
      CounterMoves(cfg, s1, e.request, c);
      StepKeeps(cfg, s, e);
      NoResetLater(cfg, s, es, c);
      LockHolds(cfg, t, es[1..], c);
      forall i | 0 <= i < |es| ensures Barred(cfg, At(cfg, s, es, i), es[i].request, c) {
        if i > 0 {
          AtShift(cfg, s, es, i - 1);
          assert Barred(cfg, At(cfg, t, es[1..], i - 1), es[1..][i - 1].request, c);
        }
      }
    }
  }
}
