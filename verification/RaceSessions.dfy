/** One live session per credential, with rotations in flight: a rotation past its claim that names
    no session will open one, so the bound counts the families such rotations hold as orphans too. */
module RaceSessions {
  import opened Options
  import opened Settings
  import opened Tables
  import opened Sessions
  import opened Machine
  import opened Invariants
  import opened Shapes
  import opened SingleSession
  import opened Interleaving

  /** The rotation will open a session of `c`. */
  ghost predicate Adopts(claims: map<nat, Claim>, pid: nat, c: CredentialId) {
    pid in claims && claims[pid].Claimed? && claims[pid].credential == c && claims[pid].session.None?
  }

  ghost function AdoptedBy(claims: map<nat, Claim>, c: CredentialId): set<FamilyId> {
    set pid | pid in claims && Adopts(claims, pid, c) :: claims[pid].family
  }

  /** The families that may yet give `c` a session no sign-in opens. */
  ghost function Adoptable(q: Race, c: CredentialId): set<FamilyId> {
    Orphans(q.store, c) + AdoptedBy(q.inFlight, c)
  }

  lemma InAdopted(claims: map<nat, Claim>, pid: nat, c: CredentialId)
    requires Adopts(claims, pid, c)
    ensures claims[pid].family in AdoptedBy(claims, c)
  {
  }

  /** The potential of `c` is within one more than `n`. */
  ghost predicate RaceWithin(q: Race, c: CredentialId, n: nat) {
    |Live(q.store, c)| + |Adoptable(q, c)| <= 1 + n && |Adoptable(q, c)| <= n
  }

  lemma NoMoreIsWithin(q: Race, k: Race, c: CredentialId, n: nat)
    requires RaceWithin(q, c, n) && Live(k.store, c) <= Live(q.store, c) && Adoptable(k, c) <= Adoptable(q, c)
    ensures RaceWithin(k, c, n)
  {
    Subset(Live(k.store, c), Live(q.store, c));
    Subset(Adoptable(k, c), Adoptable(q, c));
  }

  lemma LaterWithin(q: Race, elapsed: nat, c: CredentialId, n: nat)
    requires RaceWithin(q, c, n)
    ensures RaceWithin(Later(q, elapsed), c, n)
  {
    RevokingGainsNothing(q.store, Later(q, elapsed).store, c);
    NoMoreIsWithin(q, Later(q, elapsed), c, n);
  }

  lemma FewerAdopt(a: map<nat, Claim>, b: map<nat, Claim>, c: CredentialId)
    requires forall pid | pid in b :: pid in a && b[pid] == a[pid]
    ensures AdoptedBy(b, c) <= AdoptedBy(a, c)
  {
    forall f | f in AdoptedBy(b, c) ensures f in AdoptedBy(a, c) {
      var pid :| pid in b && Adopts(b, pid, c) && b[pid].family == f;
      InAdopted(a, pid, c);
    }
  }

  // --- Claiming ---------------------------------------------------------------

  /** Marking a token spent changes nobody's orphans. */
  lemma SpendingKeepsOrphans(s: Store, raw: Secret, c: CredentialId)
    requires raw in s.tokens
    ensures Orphans(s.(tokens := s.tokens[raw := s.tokens[raw].(rotated := true)]), c) <= Orphans(s, c)
  {
    var t := s.(tokens := s.tokens[raw := s.tokens[raw].(rotated := true)]);
    forall f | f in Orphans(t, c) ensures f in Orphans(s, c) {
      var r :| r in t.tokens && IsOrphan(t, c, r) && t.tokens[r].family == f;
      TiesPersist(s, t, f);
      InOrphans(s, c, r);
    }
  }

  /** A claim that will adopt holds a family that was an orphan. */
  lemma ClaimedWasOrphan(s: Store, raw: Secret)
    requires Wins(s, raw) && ClaimToken(s, raw).1.session.None?
    ensures ClaimToken(s, raw).1.family in Orphans(s, ClaimToken(s, raw).1.credential)
  {
    InOrphans(s, s.tokens[raw].credential, raw);
  }

  lemma WonBeginWithin(q: Race, pid: nat, raw: Secret, c: CredentialId, n: nat)
    requires RaceWithin(q, c, n) && Wins(q.store, raw) && pid !in q.inFlight
    ensures RaceWithin(BeginRotation(q, pid, raw), c, n)
  {
    var (t, claim) := ClaimToken(q.store, raw);
    var k := BeginRotation(q, pid, raw);
    assert t == q.store.(tokens := q.store.tokens[raw := q.store.tokens[raw].(rotated := true)]);
    SpendingKeepsOrphans(q.store, raw, c);
    assert k.store == t && k.inFlight == q.inFlight[pid := claim];
    forall f | f in AdoptedBy(k.inFlight, c) ensures f in Adoptable(q, c) {
      var x :| x in k.inFlight && Adopts(k.inFlight, x, c) && k.inFlight[x].family == f;
      if x == pid {
        ClaimedWasOrphan(q.store, raw);
      } else {
        InAdopted(q.inFlight, x, c);
      }
    }
    NoMoreIsWithin(q, k, c, n);
  }

  lemma LostBeginWithin(q: Race, pid: nat, raw: Secret, c: CredentialId, n: nat)
    requires RaceWithin(q, c, n) && !Wins(q.store, raw)
    ensures RaceWithin(BeginRotation(q, pid, raw), c, n)
  {
    var k := BeginRotation(q, pid, raw);
    RefusedClaimOnlyRevokes(q.store, raw);
    RevokingGainsNothing(q.store, k.store, c);
    NoMoreIsWithin(q, k, c, n);
  }

  // --- Finishing --------------------------------------------------------------

  /** The family of a claim has a session once the claim is finished. */
  lemma FinishedIsTied(cfg: Settings, s: Store, claim: Claim)
    requires Tied(s, claim)
    ensures HasSession(Finished(cfg, s, claim), claim.family)
  {
    var t := Finished(cfg, s, claim);
    var sid := SidOf(s, claim);
    assert sid in t.sessions && t.sessions[sid].family == Some(claim.family);
  }

  /** Finishing makes no orphan and takes the claim's family off the list. */
  lemma FinishOrphans(cfg: Settings, s: Store, claim: Claim, c: CredentialId)
    requires Drawn(s) && Tied(s, claim)
    ensures Orphans(Finished(cfg, s, claim), c) <= Orphans(s, c) - {claim.family}
  {
    var t := Finished(cfg, s, claim);
    FinishedIsTied(cfg, s, claim);
    forall f | f in Orphans(t, c) ensures f in Orphans(s, c) && f != claim.family {
      var r :| r in t.tokens && IsOrphan(t, c, r) && t.tokens[r].family == f;
      TiesPersist(s, t, f);
      InOrphans(s, c, r);
    }
  }

  /** Only the finished rotation held its family. */
  lemma FinishAdopted(cfg: Settings, q: Race, pid: nat, c: CredentialId)
    requires RaceSound(cfg, q) && pid in q.inFlight
    ensures var claim := q.inFlight[pid];
      claim.Claimed? && AdoptedBy(q.inFlight - {pid}, c) <= AdoptedBy(q.inFlight, c) - {claim.family}
  {
    HeldClaims(cfg, q, pid);
    var claim, rest := q.inFlight[pid], q.inFlight - {pid};
    FewerAdopt(q.inFlight, rest, c);
    forall x | x in rest && Adopts(rest, x, c) ensures rest[x].family != claim.family {
      if rest[x].family == claim.family {
        assert HoldsClaim(Pending(q), x, claim.family) && HoldsClaim(Pending(q), pid, claim.family);
      }
    }
  }

  lemma FinishAdoptable(cfg: Settings, q: Race, pid: nat, c: CredentialId)
    requires RaceSound(cfg, q) && pid in q.inFlight
    ensures var claim := q.inFlight[pid];
      && claim.Claimed? && Tied(q.store, claim)
      && EndRotation(cfg, q, pid).store == Finished(cfg, q.store, claim)
      && Adoptable(EndRotation(cfg, q, pid), c) <= Adoptable(q, c) - {claim.family}
  {
    HeldClaims(cfg, q, pid);
    FinishShape(cfg, q.store, q.inFlight[pid]);
    FinishOrphans(cfg, q.store, q.inFlight[pid], c);
    FinishAdopted(cfg, q, pid, c);
  }

  lemma FinishLive(cfg: Settings, s: Store, claim: Claim, c: CredentialId)
    requires Drawn(s) && Tied(s, claim)
    ensures Live(Finished(cfg, s, claim), c)
         == Live(s, c) + (if claim.session.None? && claim.credential == c then {s.next} else {})
  {
  }

  /** One more live session for one family fewer. */
  lemma TradeIsWithin(q: Race, k: Race, c: CredentialId, n: nat, f: FamilyId, sid: SessionId)
    requires RaceWithin(q, c, n) && f in Adoptable(q, c)
    requires Live(k.store, c) <= Live(q.store, c) + {sid} && Adoptable(k, c) <= Adoptable(q, c) - {f}
    ensures RaceWithin(k, c, n)
  {
    Subset(Live(k.store, c), Live(q.store, c) + {sid});
    Subset(Adoptable(k, c), Adoptable(q, c) - {f});
  }

  lemma AdoptingWithin(cfg: Settings, q: Race, pid: nat, c: CredentialId, n: nat)
    requires RaceSound(cfg, q) && RaceWithin(q, c, n) && Adopts(q.inFlight, pid, c)
    ensures RaceWithin(EndRotation(cfg, q, pid), c, n)
  {
    var claim, k := q.inFlight[pid], EndRotation(cfg, q, pid);
    InAdopted(q.inFlight, pid, c);
    FinishAdoptable(cfg, q, pid, c);
    FinishLive(cfg, q.store, claim, c);
    TradeIsWithin(q, k, c, n, claim.family, q.store.next);
  }

  lemma FinishWithin(cfg: Settings, q: Race, pid: nat, c: CredentialId, n: nat)
    requires RaceSound(cfg, q) && RaceWithin(q, c, n) && pid in q.inFlight
    ensures q.inFlight[pid].Claimed? && RaceWithin(EndRotation(cfg, q, pid), c, n)
  {
    if Adopts(q.inFlight, pid, c) {
      AdoptingWithin(cfg, q, pid, c, n);
    } else {
      FinishAdoptable(cfg, q, pid, c);
      FinishLive(cfg, q.store, q.inFlight[pid], c);
      NoMoreIsWithin(q, EndRotation(cfg, q, pid), c, n);
    }
  }

  // --- Every other request ----------------------------------------------------

  lemma ServeWithin(cfg: Settings, q: Race, r: Request, c: CredentialId, n: nat)
    requires cfg.singleSession && RaceSound(cfg, q) && RaceWithin(q, c, n) && !r.DoRefresh?
    ensures RaceWithin(ServeOther(cfg, q, r), c, n)
  {
    var k := ServeOther(cfg, q, r);
    if SignsIn(q.store, r) {
      SignInWithin(cfg, q, r, c, n);
    } else {
      OthersOnlyRevoke(cfg, q.store, r);
      RevokingGainsNothing(q.store, k.store, c);
      NoMoreIsWithin(q, k, c, n);
    }
  }

  lemma SignInWithin(cfg: Settings, q: Race, r: Request, c: CredentialId, n: nat)
    requires cfg.singleSession && RaceSound(cfg, q) && RaceWithin(q, c, n) && SignsIn(q.store, r)
    ensures RaceWithin(ServeOther(cfg, q, r), c, n)
  {
    var s, k, ch := q.store, ServeOther(cfg, q, r), r.challenge;
    AfterSignIn(cfg, q, r);
    SignInAddsNoOrphan(cfg, s, ch, c);
    assert Adoptable(k, c) <= Adoptable(q, c);
    Subset(Adoptable(k, c), Adoptable(q, c));
    if s.challenges[ch].credential == c {
      SignInShape(cfg, s, ch, r.code);
      NewestWins(cfg, s, ch, r.code);
    } else {
      SignInOfAnother(cfg, s, ch, c);
    }
  }

  lemma CrashWithin(cfg: Settings, q: Race, pid: nat, c: CredentialId, n: nat)
    requires RaceWithin(q, c, n)
    ensures RaceWithin(Advance(cfg, q, Crash(pid)), c, n)
  {
    FewerAdopt(q.inFlight, Advance(cfg, q, Crash(pid)).inFlight, c);
    NoMoreIsWithin(q, Advance(cfg, q, Crash(pid)), c, n);
  }

  lemma BeginWithin(q: Race, pid: nat, raw: Secret, c: CredentialId, n: nat)
    requires RaceWithin(q, c, n) && pid !in q.inFlight
    ensures RaceWithin(BeginRotation(q, pid, raw), c, n)
  {
    if Wins(q.store, raw) {
      WonBeginWithin(q, pid, raw, c, n);
    } else {
      LostBeginWithin(q, pid, raw, c, n);
    }
  }

  lemma AdvanceWithin(cfg: Settings, q: Race, m: Move, c: CredentialId, n: nat)
    requires cfg.singleSession && RaceSound(cfg, q) && RaceWithin(q, c, n)
    ensures RaceWithin(Advance(cfg, q, m), c, n)
  {
    match m {
      case Begin(pid, elapsed, raw) =>
        LaterWithin(q, elapsed, c, n);
        if pid !in q.inFlight && pid !in q.lost {
          BeginWithin(Later(q, elapsed), pid, raw, c, n);
        }
      case Finish(pid, elapsed) =>
        LaterWithin(q, elapsed, c, n);
        LaterSound(cfg, q, elapsed);
        if pid in q.inFlight {
          FinishWithin(cfg, Later(q, elapsed), pid, c, n);
        }
      case Crash(pid) => CrashWithin(cfg, q, pid, c, n);
      case Serve(e) =>
        LaterWithin(q, e.elapsed, c, n);
        LaterSound(cfg, q, e.elapsed);
        if !e.request.DoRefresh? {
          ServeWithin(cfg, Later(q, e.elapsed), e.request, c, n);
        }
    }
  }

  lemma {:induction false} RaceStaysWithin(cfg: Settings, q: Race, ms: seq<Move>, c: CredentialId, n: nat)
    requires cfg.singleSession && RaceSound(cfg, q) && RaceWithin(q, c, n)
    ensures RaceWithin(RunRace(cfg, q, ms), c, n)
    decreases |ms|
  {
    if ms != [] {
      AdvanceWithin(cfg, q, ms[0], c, n);
      AdvanceSound(cfg, q, ms[0]);
      RaceStaysWithin(cfg, Advance(cfg, q, ms[0]), ms[1..], c, n);
    }
  }

  /** Under the policy, in every interleaving: live sessions, and orphan families together with the
      families held by rotations that will adopt them, never exceed one plus those of the start. */
  lemma {:induction false} RacePotential(cfg: Settings, q: Race, ms: seq<Move>, c: CredentialId)
    requires cfg.singleSession && RaceSound(cfg, q) && |Live(q.store, c)| <= 1
    ensures var k := RunRace(cfg, q, ms);
      |Live(k.store, c)| + |Adoptable(k, c)| <= 1 + |Adoptable(q, c)|
  {
    RaceStaysWithin(cfg, q, ms, c, |Adoptable(q, c)|);
  }

  /** With nothing to adopt at the start there is one live session at most, however requests race. */
  lemma {:induction false} AtMostOneInTheRace(cfg: Settings, q: Race, ms: seq<Move>, c: CredentialId, a: SessionId,
                                              b: SessionId)
    requires cfg.singleSession && RaceSound(cfg, q) && |Live(q.store, c)| <= 1 && Adoptable(q, c) == {}
    requires a in Live(RunRace(cfg, q, ms).store, c) && b in Live(RunRace(cfg, q, ms).store, c)
    ensures a == b
  {
    RacePotential(cfg, q, ms, c);
    if a != b {
      Subset({a, b}, Live(RunRace(cfg, q, ms).store, c));
    }
  }
}
