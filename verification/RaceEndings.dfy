/** What ending means while rotations are in flight. */
module RaceEndings {
  import opened Options
  import opened Settings
  import opened Tables
  import opened Sessions
  import opened Machine
  import opened Invariants
  import opened Shapes
  import opened Endings
  import opened Interleaving

  lemma EmptyRaceIsSound(cfg: Settings)
    ensures RaceSound(cfg, Race(EMPTY, map[], map[], map[]))
  {
  }

  // --- Dead families ----------------------------------------------------------

  /** The family is dead and no rotation of it is between its two commits. */
  ghost predicate DeadAndIdle(q: Race, f: FamilyId) {
    f in q.chains && Dead(q.store, f) && Holders(q.inFlight, f) == {}
  }

  lemma BeginKeepsDead(q: Race, pid: nat, raw: Secret, f: FamilyId)
    requires DeadAndIdle(q, f)
    ensures DeadAndIdle(BeginRotation(q, pid, raw), f)
  {
    var k := BeginRotation(q, pid, raw);
    forall x | x in Holders(k.inFlight, f) ensures x in Holders(q.inFlight, f) {
    }
    if Wins(q.store, raw) {
      assert k.store.tokens == q.store.tokens[raw := q.store.tokens[raw].(rotated := true)];
    } else {
      RefusedClaimOnlyRevokes(q.store, raw);
    }
  }

  lemma FinishKeepsDead(cfg: Settings, q: Race, pid: nat, f: FamilyId)
    requires RaceSound(cfg, q) && DeadAndIdle(q, f) && pid in q.inFlight
    ensures q.inFlight[pid].Claimed? && DeadAndIdle(EndRotation(cfg, q, pid), f)
  {
    HeldClaims(cfg, q, pid);
    var k := EndRotation(cfg, q, pid);
    FinishShape(cfg, q.store, q.inFlight[pid]);
    assert pid !in Holders(q.inFlight, f);
    forall x | x in Holders(k.inFlight, f) ensures x in Holders(q.inFlight, f) {
    }
  }

  lemma ServeKeepsDead(cfg: Settings, q: Race, r: Request, f: FamilyId)
    requires RaceSound(cfg, q) && DeadAndIdle(q, f) && !r.DoRefresh?
    ensures DeadAndIdle(ServeOther(cfg, q, r), f)
  {
    ChainsAreDrawn(q.store, q.chains);
    DeadStep(cfg, q.store, r, f);
  }

  lemma AdvanceKeepsDead(cfg: Settings, q: Race, m: Move, f: FamilyId)
    requires RaceSound(cfg, q) && DeadAndIdle(q, f)
    ensures DeadAndIdle(Advance(cfg, q, m), f)
  {
    match m {
      case Begin(pid, elapsed, raw) =>
        BeginKeepsDead(Later(q, elapsed), pid, raw, f);
      case Finish(pid, elapsed) =>
        LaterSound(cfg, q, elapsed);
        if pid in q.inFlight {
          FinishKeepsDead(cfg, Later(q, elapsed), pid, f);
        }
      case Crash(pid) =>
        forall x | x in Holders(Advance(cfg, q, m).inFlight, f) ensures x in Holders(q.inFlight, f) {
        }
      case Serve(e) =>
        LaterSound(cfg, q, e.elapsed);
        if !e.request.DoRefresh? {
          ServeKeepsDead(cfg, Later(q, e.elapsed), e.request, f);
        }
    }
  }

  lemma {:induction false} DeadAndIdleStays(cfg: Settings, q: Race, ms: seq<Move>, f: FamilyId)
    requires RaceSound(cfg, q) && DeadAndIdle(q, f)
    ensures Dead(RunRace(cfg, q, ms).store, f)
    decreases |ms|
  {
    if ms != [] {
      AdvanceSound(cfg, q, ms[0]);
      AdvanceKeepsDead(cfg, q, ms[0], f);
      DeadAndIdleStays(cfg, Advance(cfg, q, ms[0]), ms[1..], f);
    }
  }

  /** A rotation in flight revives the family it holds. */
  lemma InFlightRevives(cfg: Settings, q: Race, pid: nat, f: FamilyId)
    requires RaceSound(cfg, q) && pid in Holders(q.inFlight, f)
    ensures !Dead(RunRace(cfg, q, [Finish(pid, 0)]).store, f)
  {
    var k := Later(q, 0);
    assert k == q;
    HeldClaims(cfg, q, pid);
    FinishShape(cfg, q.store, q.inFlight[pid]);
    var t := EndRotation(cfg, q, pid);
    assert RunRace(cfg, q, [Finish(pid, 0)]) == RunRace(cfg, t, []);
    var child := ChildOf(q.store, q.inFlight[pid]);
    assert child in t.store.tokens && t.store.tokens[child].family == f && !t.store.tokens[child].revoked;
  }

  /** Reuse detection and logout kill a family for good exactly when no rotation of that family
      is between its two commits. */
  lemma DeadForGoodIff(cfg: Settings, q: Race, f: FamilyId)
    requires RaceSound(cfg, q) && f in q.chains && Dead(q.store, f)
    ensures (forall ms :: Dead(RunRace(cfg, q, ms).store, f)) <==> Holders(q.inFlight, f) == {}
  {
    if Holders(q.inFlight, f) == {} {
      forall ms ensures Dead(RunRace(cfg, q, ms).store, f) {
        DeadAndIdleStays(cfg, q, ms, f);
      }
    } else {
      var pid :| pid in Holders(q.inFlight, f);
      InFlightRevives(cfg, q, pid, f);
    }
  }

  lemma WinnerIsInFlight(q: Race, pid: nat, raw: Secret)
    requires Wins(q.store, raw)
    ensures var k := BeginRotation(q, pid, raw); var f := q.store.tokens[raw].family;
      && pid in Holders(k.inFlight, f) && k.lost == q.lost
      && k.inFlight.Keys == q.inFlight.Keys + {pid}
      && raw in k.store.tokens && k.store.tokens[raw].rotated && k.store.tokens[raw].family == f
  {
  }

  lemma LoserKills(cfg: Settings, q: Race, pid: nat, raw: Secret)
    requires RaceSound(cfg, q) && pid !in q.inFlight && pid !in q.lost
    requires raw in q.store.tokens && q.store.tokens[raw].rotated
    ensures var k := BeginRotation(q, pid, raw);
      RaceSound(cfg, k) && Dead(k.store, q.store.tokens[raw].family) && k.inFlight == q.inFlight
  {
    BeginSound(cfg, q, pid, raw);
  }

  lemma RunOne(cfg: Settings, q: Race, m: Move)
    ensures RunRace(cfg, q, [m]) == Advance(cfg, q, m)
  {
    assert RunRace(cfg, q, [m]) == RunRace(cfg, Advance(cfg, q, m), [m][1..]);
  }

  /** So "replay revokes the whole family" (README.md:25) does not hold in the gap: replay a token
      while its own rotation is between commits, and the family dies and then comes back. */
  lemma ReplayInTheGap(cfg: Settings, q: Race, p1: nat, p2: nat, raw: Secret)
    requires RaceSound(cfg, q) && Wins(q.store, raw)
    requires p1 != p2 && p1 !in q.inFlight && p1 !in q.lost && p2 !in q.inFlight && p2 !in q.lost
    ensures var f := q.store.tokens[raw].family;
      var k := Advance(cfg, Advance(cfg, q, Begin(p1, 0, raw)), Begin(p2, 0, raw));
      Dead(k.store, f) && !Dead(Advance(cfg, k, Finish(p1, 0)).store, f)
  {
    var f := q.store.tokens[raw].family;
    assert Later(q, 0) == q;
    var k1 := BeginRotation(q, p1, raw);
    WinnerIsInFlight(q, p1, raw);
    BeginSound(cfg, q, p1, raw);
    assert Later(k1, 0) == k1;
    var k2 := BeginRotation(k1, p2, raw);
    LoserKills(cfg, k1, p2, raw);
    InFlightRevives(cfg, k2, p1, f);
    RunOne(cfg, k2, Finish(p1, 0));
  }

  // --- Ended sessions ---------------------------------------------------------

  ghost predicate Untied(sessions: SessionTable, f: FamilyId) {
    forall sid | sid in sessions :: sessions[sid].family != Some(f)
  }

  /** No two sessions share a family, and a rotation that will open a session opens its family's first. */
  ghost predicate SessionsApart(sessions: SessionTable, pending: map<nat, Claim>) {
    && OneSessionPerFamily(sessions)
    && (forall pid | pid in pending ::
          pending[pid].Claimed? && pending[pid].session.None? ==> Untied(sessions, pending[pid].family))
  }

  lemma EndingKeepsApart(a: SessionTable, b: SessionTable, pending: map<nat, Claim>)
    requires SessionsApart(a, pending) && SessionsOnlyEnded(a, b)
    ensures SessionsApart(b, pending)
  {
    assert forall sid | sid in b :: sid in a && b[sid].family == a[sid].family;
  }

  lemma BeginKeepsApart(s: Store, pending: map<nat, Claim>, pid: nat, raw: Secret)
    requires SessionsApart(s.sessions, pending)
    ensures ClaimToken(s, raw).0.sessions == s.sessions
    ensures Wins(s, raw) ==> SessionsApart(s.sessions, pending[pid := ClaimToken(s, raw).1])
  {
  }

  lemma FinishKeepsApart(cfg: Settings, s: Store, pending: map<nat, Claim>, pid: nat)
    requires Drawn(s) && SessionsApart(s.sessions, pending) && pid in pending && Tied(s, pending[pid])
    requires forall p1, p2, f | HoldsClaim(pending, p1, f) && HoldsClaim(pending, p2, f) :: p1 == p2
    ensures SessionsApart(FinishRotation(cfg, s, pending[pid]).0.sessions, pending - {pid})
  {
    var claim := pending[pid];
    FinishShape(cfg, s, claim);
    var t := Finished(cfg, s, claim).sessions;
    if claim.session.None? {
      assert Untied(s.sessions, claim.family);
      forall x | x in pending - {pid} && pending[x].Claimed? && pending[x].session.None?
        ensures Untied(t, pending[x].family)
      {
        assert HoldsClaim(pending, x, pending[x].family) && HoldsClaim(pending, pid, claim.family);
        assert Untied(s.sessions, pending[x].family);
      }
    }
  }

  lemma SignInKeepsApart(cfg: Settings, s: Store, pending: map<nat, Claim>, ch: ChallengeId)
    requires Drawn(s) && ClaimsRooted(s, pending) && SessionsApart(s.sessions, pending)
    requires ch in s.challenges && s.challenges[ch].credential in s.credentials
    ensures SessionsApart(SignedIn(cfg, s, ch).sessions, pending)
  {
    var base, t := Cleared(cfg, s, ch).sessions, SignedIn(cfg, s, ch).sessions;
    EndingKeepsApart(s.sessions, base, pending);
    assert forall sid | sid in base :: base[sid].family == s.sessions[sid].family;
    forall x | x in pending && pending[x].Claimed? && pending[x].session.None? ensures Untied(t, pending[x].family) {
      assert ClaimRooted(s, pending[x]);
      assert Untied(base, pending[x].family);
    }
  }

  ghost predicate RaceApart(q: Race) {
    SessionsApart(q.store.sessions, Pending(q))
  }

  lemma AdvanceKeepsApart(cfg: Settings, q: Race, m: Move)
    requires RaceSound(cfg, q) && RaceApart(q)
    ensures RaceApart(Advance(cfg, q, m))
  {
    match m {
      case Begin(pid, elapsed, raw) =>
        if pid !in q.inFlight && pid !in q.lost {
          BeginKeepsApart(Later(q, elapsed).store, Pending(q), pid, raw);
          PendingAfterBegin(Later(q, elapsed), pid, raw);
        }
      case Finish(pid, elapsed) =>
        if pid in q.inFlight {
          LaterSound(cfg, q, elapsed);
          HeldClaims(cfg, Later(q, elapsed), pid);
          PendingAfterFinish(cfg, Later(q, elapsed), pid);
          FinishKeepsApart(cfg, Later(q, elapsed).store, Pending(q), pid);
        }
      case Crash(pid) =>
        if pid in q.inFlight {
          PendingAfterCrash(cfg, q, pid);
        }
      case Serve(e) =>
        if !e.request.DoRefresh? {
          LaterSound(cfg, q, e.elapsed);
          ServeKeepsApart(cfg, Later(q, e.elapsed), e.request);
        }
    }
  }

  lemma ServeKeepsApart(cfg: Settings, q: Race, r: Request)
    requires RaceSound(cfg, q) && RaceApart(q) && !r.DoRefresh?
    ensures RaceApart(ServeOther(cfg, q, r))
  {
    if SignsIn(q.store, r) {
      AfterSignIn(cfg, q, r);
      SignInKeepsApart(cfg, q.store, Pending(q), r.challenge);
    } else {
      OthersOnlyRevoke(cfg, q.store, r);
      EndingKeepsApart(q.store.sessions, Handle(cfg, q.store, r).0.sessions, Pending(q));
    }
  }

  /** Every way a claim can go, whatever else is in flight: in the order of the source, and with no
      effect unless it wins or detects reuse. */
  lemma ClaimAnswers(s: Store, raw: Secret)
    requires OneSessionPerFamily(s.sessions)
    ensures var (t, claim) := ClaimToken(s, raw);
      if raw !in s.tokens then t == s && claim == NotClaimed(InvalidRefresh(UnknownToken))
      else if s.tokens[raw].rotated || s.tokens[raw].revoked then
        && claim == NotClaimed(InvalidRefresh(ReuseDetected)) && Dead(t, s.tokens[raw].family)
        && t.sessions == s.sessions
        && (forall x | x in s.tokens && s.tokens[x].family != s.tokens[raw].family ::
              x in t.tokens && t.tokens[x] == s.tokens[x])
      else if s.now > s.tokens[raw].expiresAt then t == s && claim == NotClaimed(InvalidRefresh(TokenExpired))
      else if !Enabled(s, s.tokens[raw].credential) then t == s && claim == NotClaimed(AccountDisabled)
      else if exists sid :: sid in s.sessions && s.sessions[sid].family == Some(s.tokens[raw].family)
                            && s.sessions[sid].revoked
      then t == s && claim == NotClaimed(InvalidRefresh(SessionEnded))
      else claim.Claimed? && claim.raw == raw
  {
    if raw in s.tokens {
      var f := s.tokens[raw].family;
      forall sid | sid in s.sessions && s.sessions[sid].family == Some(f)
        ensures SessionOfFamily(s.sessions, f) == Some(sid)
      {
        SessionOfFamilyFinds(s.sessions, f, sid);
      }
    }
  }

  ghost predicate EndedWith(q: Race, sid: SessionId, f: FamilyId) {
    sid in q.store.sessions && q.store.sessions[sid].revoked && q.store.sessions[sid].family == Some(f)
  }

  lemma FinishKeepsEnded(cfg: Settings, q: Race, pid: nat, sid: SessionId, f: FamilyId)
    requires RaceSound(cfg, q) && EndedWith(q, sid, f) && pid in q.inFlight
    ensures q.inFlight[pid].Claimed? && EndedWith(EndRotation(cfg, q, pid), sid, f)
  {
    HeldClaims(cfg, q, pid);
    FinishShape(cfg, q.store, q.inFlight[pid]);
  }

  lemma BeginKeepsEnded(q: Race, pid: nat, raw: Secret, sid: SessionId, f: FamilyId)
    requires EndedWith(q, sid, f)
    ensures EndedWith(BeginRotation(q, pid, raw), sid, f)
  {
  }

  lemma ServeKeepsEnded(cfg: Settings, q: Race, r: Request, sid: SessionId, f: FamilyId)
    requires RaceSound(cfg, q) && EndedWith(q, sid, f)
    ensures EndedWith(ServeOther(cfg, q, r), sid, f)
  {
    EndedStep(cfg, q.store, r, sid);
  }

  lemma AdvanceKeepsEnded(cfg: Settings, q: Race, m: Move, sid: SessionId, f: FamilyId)
    requires RaceSound(cfg, q) && EndedWith(q, sid, f)
    ensures EndedWith(Advance(cfg, q, m), sid, f)
  {
    match m {
      case Begin(pid, elapsed, raw) => BeginKeepsEnded(Later(q, elapsed), pid, raw, sid, f);
      case Finish(pid, elapsed) =>
        if pid in q.inFlight {
          LaterSound(cfg, q, elapsed);
          FinishKeepsEnded(cfg, Later(q, elapsed), pid, sid, f);
        }
      case Crash(_) =>
      case Serve(e) =>
        LaterSound(cfg, q, e.elapsed);
        ServeKeepsEnded(cfg, Later(q, e.elapsed), e.request, sid, f);
    }
  }

  /** Even where an ended session's family is revived by a rotation in flight, the revived token
      is worth nothing: no token of that family ever wins a rotation again. */
  lemma {:induction false} EndedSessionNeverRotates(cfg: Settings, q: Race, ms: seq<Move>, sid: SessionId,
                                                    f: FamilyId, raw: Secret)
    requires RaceSound(cfg, q) && RaceApart(q) && EndedWith(q, sid, f)
    ensures var s := RunRace(cfg, q, ms).store;
      && sid in s.sessions && s.sessions[sid].revoked
      && (raw in s.tokens && s.tokens[raw].family == f ==> !Wins(s, raw))
    decreases |ms|
  {
    if ms == [] {
      SessionOfFamilyFinds(q.store.sessions, f, sid);
    } else {
      AdvanceSound(cfg, q, ms[0]);
      AdvanceKeepsApart(cfg, q, ms[0]);
      AdvanceKeepsEnded(cfg, q, ms[0], sid, f);
      EndedSessionNeverRotates(cfg, Advance(cfg, q, ms[0]), ms[1..], sid, f, raw);
    }
  }
}
