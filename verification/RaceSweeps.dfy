/** What logging out everywhere, a reset and disabling leave behind while rotations are in flight.

    One after another these requests leave a credential nothing (`Endings.SweepingEndings`), and
    disabling is absorbing (`Endings.DisableIsAbsorbing`). A rotation that is past its claim is not
    stopped by them: the second transaction checks nothing again (services.py:681-693). */
module RaceSweeps {
  import opened Settings
  import opened Tables
  import opened Sessions
  import opened Accounts
  import opened Machine
  import opened Invariants
  import opened Shapes
  import opened Endings
  import opened Interleaving

  /** The rotations of `c` between their two commits. */
  ghost function RotatingFor(claims: map<nat, Claim>, c: CredentialId): set<nat> {
    set pid | pid in claims && claims[pid].Claimed? && claims[pid].credential == c
  }

  /** The move signs `c` in. */
  ghost predicate SignsInFor(q: Race, m: Move, c: CredentialId) {
    && m.Serve?
    && var s := Later(q, m.event.elapsed).store;
    && SignsIn(s, m.event.request)
    && s.challenges[m.event.request.challenge].credential == c
  }

  ghost predicate NoSignIn(cfg: Settings, q: Race, ms: seq<Move>, c: CredentialId)
    decreases |ms|
  {
    ms != [] ==> !SignsInFor(q, ms[0], c) && NoSignIn(cfg, Advance(cfg, q, ms[0]), ms[1..], c)
  }

  /** `c` holds nothing that works, and no rotation is about to give it something. */
  ghost predicate SweptAndIdle(q: Race, c: CredentialId) {
    HoldsNothing(q.store, c) && RotatingFor(q.inFlight, c) == {}
  }

  lemma NotRotating(claims: map<nat, Claim>, c: CredentialId, pid: nat)
    requires RotatingFor(claims, c) == {} && pid in claims && claims[pid].Claimed?
    ensures claims[pid].credential != c
  {
    assert pid !in RotatingFor(claims, c);
  }

  lemma RevokingKeepsNothing(s: Store, t: Store, c: CredentialId)
    requires HoldsNothing(s, c) && OnlyRevokes(s, t)
    ensures HoldsNothing(t, c)
  {
  }

  lemma BeginKeepsSwept(q: Race, pid: nat, raw: Secret, c: CredentialId)
    requires SweptAndIdle(q, c)
    ensures SweptAndIdle(BeginRotation(q, pid, raw), c)
  {
    var k := BeginRotation(q, pid, raw);
    if Wins(q.store, raw) {
      assert k.store.tokens == q.store.tokens[raw := q.store.tokens[raw].(rotated := true)];
    } else {
      RefusedClaimOnlyRevokes(q.store, raw);
      RevokingKeepsNothing(q.store, k.store, c);
    }
    forall x | x in RotatingFor(k.inFlight, c) ensures x in RotatingFor(q.inFlight, c) {
    }
  }

  lemma FinishedForAnother(cfg: Settings, s: Store, claim: Claim, c: CredentialId)
    requires Drawn(s) && Tied(s, claim) && claim.credential != c && HoldsNothing(s, c)
    ensures HoldsNothing(Finished(cfg, s, claim), c)
  {
  }

  lemma FinishKeepsSwept(cfg: Settings, q: Race, pid: nat, c: CredentialId)
    requires RaceSound(cfg, q) && SweptAndIdle(q, c) && pid in q.inFlight
    ensures q.inFlight[pid].Claimed? && SweptAndIdle(EndRotation(cfg, q, pid), c)
  {
    var claim := q.inFlight[pid];
    HeldClaims(cfg, q, pid);
    NotRotating(q.inFlight, c, pid);
    FinishShape(cfg, q.store, claim);
    FinishedForAnother(cfg, q.store, claim, c);
    assert RotatingFor(q.inFlight - {pid}, c) <= RotatingFor(q.inFlight, c);
  }

  lemma SignInOfAnotherKeepsNothing(cfg: Settings, s: Store, ch: ChallengeId, c: CredentialId)
    requires HoldsNothing(s, c)
    requires ch in s.challenges && s.challenges[ch].credential in s.credentials && s.challenges[ch].credential != c
    ensures HoldsNothing(SignedIn(cfg, s, ch), c)
  {
    ClearedOnlyRevokes(cfg, s, ch);
    RevokingKeepsNothing(s, Cleared(cfg, s, ch), c);
  }

  lemma ServeKeepsSwept(cfg: Settings, q: Race, r: Request, c: CredentialId)
    requires RaceSound(cfg, q) && SweptAndIdle(q, c) && !r.DoRefresh?
    requires SignsIn(q.store, r) ==> q.store.challenges[r.challenge].credential != c
    ensures SweptAndIdle(ServeOther(cfg, q, r), c)
  {
    if SignsIn(q.store, r) {
      AfterSignIn(cfg, q, r);
      SignInOfAnotherKeepsNothing(cfg, q.store, r.challenge, c);
    } else {
      OthersOnlyRevoke(cfg, q.store, r);
      RevokingKeepsNothing(q.store, ServeOther(cfg, q, r).store, c);
    }
  }

  lemma CrashKeepsSwept(cfg: Settings, q: Race, pid: nat, c: CredentialId)
    requires SweptAndIdle(q, c)
    ensures SweptAndIdle(Advance(cfg, q, Crash(pid)), c)
  {
    assert RotatingFor(Advance(cfg, q, Crash(pid)).inFlight, c) <= RotatingFor(q.inFlight, c);
  }

  lemma AdvanceKeepsSwept(cfg: Settings, q: Race, m: Move, c: CredentialId)
    requires RaceSound(cfg, q) && SweptAndIdle(q, c) && !SignsInFor(q, m, c)
    ensures SweptAndIdle(Advance(cfg, q, m), c)
  {
    match m {
      case Begin(pid, elapsed, raw) =>
        BeginKeepsSwept(Later(q, elapsed), pid, raw, c);
      case Finish(pid, elapsed) =>
        LaterSound(cfg, q, elapsed);
        if pid in q.inFlight {
          FinishKeepsSwept(cfg, Later(q, elapsed), pid, c);
        }
      case Crash(pid) =>
        CrashKeepsSwept(cfg, q, pid, c);
      case Serve(e) =>
        LaterSound(cfg, q, e.elapsed);
        if !e.request.DoRefresh? {
          ServeKeepsSwept(cfg, Later(q, e.elapsed), e.request, c);
        }
    }
  }

  lemma {:induction false} SweptAndIdleStays(cfg: Settings, q: Race, ms: seq<Move>, c: CredentialId)
    requires RaceSound(cfg, q) && SweptAndIdle(q, c) && NoSignIn(cfg, q, ms, c)
    ensures HoldsNothing(RunRace(cfg, q, ms).store, c)
    decreases |ms|
  {
    if ms != [] {
      AdvanceSound(cfg, q, ms[0]);
      AdvanceKeepsSwept(cfg, q, ms[0], c);
      SweptAndIdleStays(cfg, Advance(cfg, q, ms[0]), ms[1..], c);
    }
  }

  ghost predicate HasLiveSession(s: Store, c: CredentialId) {
    exists sid :: sid in s.sessions && LiveFor(s.sessions[sid], c)
  }

  lemma FinishNow(cfg: Settings, q: Race, pid: nat, c: CredentialId)
    requires pid in q.inFlight && q.inFlight[pid].Claimed?
    ensures Advance(cfg, q, Finish(pid, 0)) == EndRotation(cfg, q, pid)
    ensures RunRace(cfg, q, [Finish(pid, 0)]) == EndRotation(cfg, q, pid)
    ensures NoSignIn(cfg, q, [Finish(pid, 0)], c)
  {
    assert Later(q, 0) == q;
    assert [Finish(pid, 0)][1..] == [];
  }

  /** A rotation in flight brings its holder a working token, and a live session if it adopts. */
  lemma FinishRestores(cfg: Settings, q: Race, pid: nat, c: CredentialId)
    requires RaceSound(cfg, q) && pid in RotatingFor(q.inFlight, c)
    ensures var k := EndRotation(cfg, q, pid).store;
      && !HoldsNothing(k, c)
      && (q.inFlight[pid].session.None? ==> HasLiveSession(k, c))
  {
    var claim := q.inFlight[pid];
    HeldClaims(cfg, q, pid);
    FinishShape(cfg, q.store, claim);
    var t := Finished(cfg, q.store, claim);
    assert ChildOf(q.store, claim) in t.tokens;
    if claim.session.None? {
      assert LiveFor(t.sessions[q.store.next], c);
    }
  }

  /** `c` holds nothing in any continuation without a new sign-in. */
  ghost predicate StaysSwept(cfg: Settings, q: Race, c: CredentialId) {
    forall ms | NoSignIn(cfg, q, ms, c) :: HoldsNothing(RunRace(cfg, q, ms).store, c)
  }

  lemma IdleStaysSwept(cfg: Settings, q: Race, c: CredentialId)
    requires RaceSound(cfg, q) && SweptAndIdle(q, c)
    ensures StaysSwept(cfg, q, c)
  {
    forall ms | NoSignIn(cfg, q, ms, c) ensures HoldsNothing(RunRace(cfg, q, ms).store, c) {
      SweptAndIdleStays(cfg, q, ms, c);
    }
  }

  lemma RotatingUndoes(cfg: Settings, q: Race, pid: nat, c: CredentialId)
    requires RaceSound(cfg, q) && pid in RotatingFor(q.inFlight, c)
    ensures !StaysSwept(cfg, q, c)
  {
    FinishRestores(cfg, q, pid, c);
    FinishNow(cfg, q, pid, c);
    assert !HoldsNothing(RunRace(cfg, q, [Finish(pid, 0)]).store, c);
  }

  /** Once swept, a credential holds nothing in every continuation without a new sign-in if and only
      if no rotation of it is between its two commits. */
  lemma SweptForGoodIff(cfg: Settings, q: Race, c: CredentialId)
    requires RaceSound(cfg, q) && HoldsNothing(q.store, c)
    ensures StaysSwept(cfg, q, c) <==> RotatingFor(q.inFlight, c) == {}
  {
    if RotatingFor(q.inFlight, c) == {} {
      IdleStaysSwept(cfg, q, c);
    } else {
      var pid :| pid in RotatingFor(q.inFlight, c);
      RotatingUndoes(cfg, q, pid, c);
    }
  }

  // --- Disabling --------------------------------------------------------------

  lemma FinishKeepsCredentials(cfg: Settings, q: Race, pid: nat)
    requires RaceSound(cfg, q) && pid in q.inFlight
    ensures q.inFlight[pid].Claimed? && EndRotation(cfg, q, pid).store.credentials == q.store.credentials
  {
    HeldClaims(cfg, q, pid);
    FinishShape(cfg, q.store, q.inFlight[pid]);
  }

  lemma BeginKeepsCredentials(q: Race, pid: nat, raw: Secret)
    ensures BeginRotation(q, pid, raw).store.credentials == q.store.credentials
  {
  }

  lemma ServeKeepsDisabled(cfg: Settings, q: Race, r: Request, c: CredentialId)
    requires RaceSound(cfg, q) && IsDisabled(q.store, c)
    ensures IsDisabled(ServeOther(cfg, q, r).store, c)
  {
    HandleKeepsStanding(cfg, q.store, r);
  }

  lemma AdvanceKeepsDisabled(cfg: Settings, q: Race, m: Move, c: CredentialId)
    requires RaceSound(cfg, q) && IsDisabled(q.store, c)
    ensures IsDisabled(Advance(cfg, q, m).store, c)
  {
    match m {
      case Begin(pid, elapsed, raw) =>
        BeginKeepsCredentials(Later(q, elapsed), pid, raw);
      case Finish(pid, elapsed) =>
        if pid in q.inFlight {
          LaterSound(cfg, q, elapsed);
          FinishKeepsCredentials(cfg, Later(q, elapsed), pid);
        }
      case Crash(_) =>
      case Serve(e) =>
        LaterSound(cfg, q, e.elapsed);
        if !e.request.DoRefresh? {
          ServeKeepsDisabled(cfg, Later(q, e.elapsed), e.request, c);
        }
    }
  }

  /** A disabled credential is never signed in, so its sweep needs no such proviso. */
  lemma {:induction false} DisabledNeverSignsIn(cfg: Settings, q: Race, ms: seq<Move>, c: CredentialId)
    requires RaceSound(cfg, q) && IsDisabled(q.store, c)
    ensures NoSignIn(cfg, q, ms, c) && IsDisabled(RunRace(cfg, q, ms).store, c)
    decreases |ms|
  {
    if ms != [] {
      AdvanceSound(cfg, q, ms[0]);
      AdvanceKeepsDisabled(cfg, q, ms[0], c);
      DisabledNeverSignsIn(cfg, Advance(cfg, q, ms[0]), ms[1..], c);
    }
  }

  /** `c` holds nothing in any continuation at all. */
  ghost predicate StaysEmpty(cfg: Settings, q: Race, c: CredentialId) {
    forall ms :: HoldsNothing(RunRace(cfg, q, ms).store, c)
  }

  lemma EmptyWithoutSignIn(cfg: Settings, q: Race, c: CredentialId)
    requires RaceSound(cfg, q) && IsDisabled(q.store, c)
    ensures StaysEmpty(cfg, q, c) == StaysSwept(cfg, q, c)
  {
    forall ms ensures NoSignIn(cfg, q, ms, c) {
      DisabledNeverSignsIn(cfg, q, ms, c);
    }
  }

  /** Disabling is absorbing if and only if no rotation of the credential is in flight. */
  lemma DisabledForGoodIff(cfg: Settings, q: Race, c: CredentialId)
    requires RaceSound(cfg, q) && IsDisabled(q.store, c) && HoldsNothing(q.store, c)
    ensures StaysEmpty(cfg, q, c) <==> RotatingFor(q.inFlight, c) == {}
  {
    SweptForGoodIff(cfg, q, c);
    EmptyWithoutSignIn(cfg, q, c);
  }

  /** Whatever a rotation in flight brought back, no token of a disabled credential is ever rotated
      again, in any interleaving. */
  lemma {:induction false} DisabledNeverRotates(cfg: Settings, q: Race, ms: seq<Move>, c: CredentialId, raw: Secret)
    requires RaceSound(cfg, q) && IsDisabled(q.store, c)
    ensures var s := RunRace(cfg, q, ms).store;
      raw in s.tokens && s.tokens[raw].credential == c ==> !Wins(s, raw)
  {
    DisabledNeverSignsIn(cfg, q, ms, c);
  }

  lemma DisableLeavesNothing(s: Store, c: CredentialId)
    requires c in s.credentials
    ensures IsDisabled(Disable(s, c).0, c) && HoldsNothing(Disable(s, c).0, c)
  {
    RevokeAllLeavesNothing(Deactivated(s, c), c, ByDisabling);
  }

  lemma AfterDisabling(cfg: Settings, q: Race, c: CredentialId)
    requires c in q.store.credentials
    ensures var k := Advance(cfg, q, Serve(Event(0, DoDisable(c))));
      k.inFlight == q.inFlight && IsDisabled(k.store, c) && HoldsNothing(k.store, c)
  {
    assert Later(q, 0) == q;
    DisableLeavesNothing(q.store, c);
  }

  lemma HolderExists(cfg: Settings, q: Race, pid: nat, c: CredentialId)
    requires RaceSound(cfg, q) && pid in RotatingFor(q.inFlight, c)
    ensures c in q.store.credentials
  {
    HeldClaims(cfg, q, pid);
  }

  ghost predicate DisabledAndLive(s: Store, c: CredentialId) {
    IsDisabled(s, c) && HasLiveSession(s, c)
  }

  lemma RestoredByFinish(cfg: Settings, q: Race, pid: nat, c: CredentialId)
    requires RaceSound(cfg, q) && pid in RotatingFor(q.inFlight, c)
    requires IsDisabled(q.store, c) && q.inFlight[pid].session.None?
    ensures DisabledAndLive(Advance(cfg, q, Finish(pid, 0)).store, c)
  {
    FinishRestores(cfg, q, pid, c);
    FinishKeepsCredentials(cfg, q, pid);
    FinishNow(cfg, q, pid, c);
  }

  /** Disable a credential while a rotation of it adopts an orphan family, and it holds nothing, and
      then a live session. */
  lemma DisabledWhileAdopting(cfg: Settings, q: Race, pid: nat, c: CredentialId)
    requires RaceSound(cfg, q) && pid in RotatingFor(q.inFlight, c) && q.inFlight[pid].session.None?
    ensures var k := Advance(cfg, q, Serve(Event(0, DoDisable(c))));
      && IsDisabled(k.store, c) && HoldsNothing(k.store, c)
      && DisabledAndLive(Advance(cfg, k, Finish(pid, 0)).store, c)
  {
    var m := Serve(Event(0, DoDisable(c)));
    HolderExists(cfg, q, pid, c);
    AdvanceSound(cfg, q, m);
    AfterDisabling(cfg, q, c);
    RestoredByFinish(cfg, Advance(cfg, q, m), pid, c);
  }

  lemma BegunRotation(q: Race, pid: nat, raw: Secret)
    requires Wins(q.store, raw)
    ensures var k := BeginRotation(q, pid, raw);
      pid in RotatingFor(k.inFlight, q.store.tokens[raw].credential) && k.inFlight[pid] == ClaimToken(q.store, raw).1
  {
  }

  lemma BegunNow(cfg: Settings, q: Race, pid: nat, raw: Secret)
    requires pid !in q.inFlight && pid !in q.lost
    ensures Advance(cfg, q, Begin(pid, 0, raw)) == BeginRotation(q, pid, raw)
  {
    assert Later(q, 0) == q;
  }

  /** So disabling (services.py:919-923) does not end everything in the gap: begin to refresh any
      orphan token that can be won, disable its holder, finish, and a disabled credential has a live
      session. */
  lemma DisableInTheGap(cfg: Settings, q: Race, pid: nat, raw: Secret)
    requires RaceSound(cfg, q) && pid !in q.inFlight && pid !in q.lost
    requires Wins(q.store, raw) && ClaimToken(q.store, raw).1.session.None?
    ensures var c := q.store.tokens[raw].credential;
      var k := Advance(cfg, Advance(cfg, q, Begin(pid, 0, raw)), Serve(Event(0, DoDisable(c))));
      && IsDisabled(k.store, c) && HoldsNothing(k.store, c)
      && DisabledAndLive(Advance(cfg, k, Finish(pid, 0)).store, c)
  {
    BegunNow(cfg, q, pid, raw);
    BegunRotation(q, pid, raw);
    BeginSound(cfg, q, pid, raw);
    DisabledWhileAdopting(cfg, BeginRotation(q, pid, raw), pid, q.store.tokens[raw].credential);
  }
}
