/** One live session per credential, orphan families included (services.py:500-566, 676-691).

    An orphan is a usable family with no session row: the leftovers of a deployment older than
    sessions. Adopting one opens a session without ending any, so the policy's bound counts
    orphans too. */
module SingleSession {
  import opened Options
  import opened Settings
  import opened Tables
  import opened Sessions
  import opened SignIn
  import opened Machine
  import opened Invariants
  import opened Shapes

  ghost function Live(s: Store, c: CredentialId): set<SessionId> {
    set sid | sid in s.sessions && LiveFor(s.sessions[sid], c)
  }

  ghost predicate HasSession(s: Store, f: FamilyId) {
    exists sid :: sid in s.sessions && s.sessions[sid].family == Some(f)
  }

  ghost predicate IsOrphan(s: Store, c: CredentialId, raw: Secret) {
    raw in s.tokens && s.tokens[raw].credential == c && !s.tokens[raw].revoked && !HasSession(s, s.tokens[raw].family)
  }

  ghost function Orphans(s: Store, c: CredentialId): set<FamilyId> {
    set raw | raw in s.tokens && IsOrphan(s, c, raw) :: s.tokens[raw].family
  }

  lemma InOrphans(s: Store, c: CredentialId, raw: Secret)
    requires IsOrphan(s, c, raw)
    ensures s.tokens[raw].family in Orphans(s, c)
  {
  }

  lemma TiesPersist(s: Store, t: Store, f: FamilyId)
    requires forall sid | sid in s.sessions && s.sessions[sid].family == Some(f) ::
      sid in t.sessions && t.sessions[sid].family == Some(f)
    ensures HasSession(s, f) ==> HasSession(t, f)
  {
  }

  lemma Subset<T>(a: set<T>, b: set<T>)
    requires a <= b
    ensures |a| <= |b|
  {
    assert b == a + (b - a);
  }

  /** The potential of a credential did not grow. */
  ghost predicate NoGain(s: Store, t: Store, c: CredentialId) {
    && |Live(t, c)| + |Orphans(t, c)| <= |Live(s, c)| + |Orphans(s, c)|
    && |Orphans(t, c)| <= |Orphans(s, c)|
  }

  lemma RevokingGainsNothing(s: Store, t: Store, c: CredentialId)
    requires OnlyRevokes(s, t)
    ensures Live(t, c) <= Live(s, c) && Orphans(t, c) <= Orphans(s, c) && NoGain(s, t, c)
  {
    forall f | f in Orphans(t, c) ensures f in Orphans(s, c) {
      var raw :| raw in t.tokens && IsOrphan(t, c, raw) && t.tokens[raw].family == f;
      TiesPersist(s, t, f);
      InOrphans(s, c, raw);
    }
    Subset(Live(t, c), Live(s, c));
    Subset(Orphans(t, c), Orphans(s, c));
  }

  /** Signing in opens a session on a family of its own, so no orphan appears. */
  lemma SignInAddsNoOrphan(cfg: Settings, s: Store, ch: ChallengeId, c: CredentialId)
    requires Rooted(cfg, s) && ch in s.challenges
    ensures Orphans(SignedIn(cfg, s, ch), c) <= Orphans(s, c)
  {
    var base, t := Cleared(cfg, s, ch), SignedIn(cfg, s, ch);
    ClearedOnlyRevokes(cfg, s, ch);
    forall f | f in Orphans(t, c) ensures f in Orphans(base, c) {
      var raw :| raw in t.tokens && IsOrphan(t, c, raw) && t.tokens[raw].family == f;
      assert t.sessions[s.next].family == Some(s.next + 2);
      assert f != s.next + 2;
      TiesPersist(base, t, f);
      InOrphans(base, c, raw);
    }
    RevokingGainsNothing(s, base, c);
  }

  /** Right after a sign-in exactly the new session is live. */
  lemma NewestWins(cfg: Settings, s: Store, ch: ChallengeId, code: Secret)
    requires cfg.singleSession && Rooted(cfg, s) && Answers(s, ch, code)
    ensures var (t, o) := VerifyChallenge(cfg, s, ch, code);
      o.Granted? && Live(t, s.challenges[ch].credential) == {o.access.sid} && o.access.sid !in s.sessions
  {
    SignInShape(cfg, s, ch, code);
  }

  /** ...and every other credential keeps its sessions. */
  lemma SignInOfAnother(cfg: Settings, s: Store, ch: ChallengeId, c: CredentialId)
    requires Rooted(cfg, s) && ch in s.challenges && s.challenges[ch].credential != c
    ensures Live(SignedIn(cfg, s, ch), c) == Live(s, c)
  {
  }

  /** Rotating evicts nobody. */
  lemma RotationEvictsNobody(cfg: Settings, s: Store, raw: Secret, c: CredentialId)
    requires Rooted(cfg, s) && Wins(s, raw)
    ensures Live(s, c) <= Live(RotateRefresh(cfg, s, raw).0, c)
  {
    RotateShape(cfg, s, raw);
  }

  /** A family keeps its standing when a token of it is succeeded under a session. */
  lemma RotationUnderSession(cfg: Settings, s: Store, raw: Secret, c: CredentialId)
    requires Rooted(cfg, s) && Wins(s, raw) && ClaimToken(s, raw).1.session.Some?
    ensures var t := RotateRefresh(cfg, s, raw).0;
      Live(t, c) == Live(s, c) && Orphans(t, c) <= Orphans(s, c)
  {
    RotateShape(cfg, s, raw);
    var t := RotateRefresh(cfg, s, raw).0;
    assert HasSession(s, s.tokens[raw].family);
    forall f | f in Orphans(t, c) ensures f in Orphans(s, c) {
      var r :| r in t.tokens && IsOrphan(t, c, r) && t.tokens[r].family == f;
      InOrphans(s, c, r);
    }
  }

  /** Adoption turns one orphan into one live session. */
  lemma Adoption(cfg: Settings, s: Store, raw: Secret, c: CredentialId)
    requires Rooted(cfg, s) && Wins(s, raw) && ClaimToken(s, raw).1.session.None?
    ensures var t := RotateRefresh(cfg, s, raw).0; var f := s.tokens[raw].family;
      if s.tokens[raw].credential == c
      then Live(t, c) == Live(s, c) + {s.next} && f in Orphans(s, c) && Orphans(t, c) <= Orphans(s, c) - {f}
      else Live(t, c) == Live(s, c) && Orphans(t, c) <= Orphans(s, c)
  {
    RotateShape(cfg, s, raw);
    var t := RotateRefresh(cfg, s, raw).0;
    var f0 := s.tokens[raw].family;
    assert !HasSession(s, f0);
    assert t.sessions[s.next].family == Some(f0);
    forall f | f in Orphans(t, c) ensures f in Orphans(s, c) && f != f0 {
      var r :| r in t.tokens && IsOrphan(t, c, r) && t.tokens[r].family == f;
      TiesPersist(s, t, f);
      InOrphans(s, c, r);
    }
    if s.tokens[raw].credential == c {
      InOrphans(s, c, raw);
    }
  }

  lemma RotationGainsNothing(cfg: Settings, s: Store, raw: Secret, c: CredentialId)
    requires Rooted(cfg, s) && Wins(s, raw)
    ensures NoGain(s, RotateRefresh(cfg, s, raw).0, c)
  {
    var t := RotateRefresh(cfg, s, raw).0;
    if ClaimToken(s, raw).1.session.Some? {
      RotationUnderSession(cfg, s, raw, c);
      Subset(Orphans(t, c), Orphans(s, c));
    } else {
      Adoption(cfg, s, raw, c);
      var f := s.tokens[raw].family;
      if s.tokens[raw].credential == c {
        Subset(Orphans(t, c), Orphans(s, c) - {f});
        assert Orphans(s, c) == (Orphans(s, c) - {f}) + {f};
      } else {
        Subset(Orphans(t, c), Orphans(s, c));
      }
    }
  }

  /** At most one live session beyond the orphans the run began with. */
  ghost predicate Within(s: Store, c: CredentialId, orphans: nat) {
    |Live(s, c)| + |Orphans(s, c)| <= 1 + orphans && |Orphans(s, c)| <= orphans
  }

  lemma WithinStep(cfg: Settings, s: Store, r: Request, c: CredentialId, orphans: nat)
    requires cfg.singleSession && Rooted(cfg, s) && Within(s, c, orphans)
    ensures Within(Handle(cfg, s, r).0, c, orphans)
  {
    if SignsIn(s, r) {
      var ch := r.challenge;
      SignInShape(cfg, s, ch, r.code);
      SignInAddsNoOrphan(cfg, s, ch, c);
      Subset(Orphans(SignedIn(cfg, s, ch), c), Orphans(s, c));
      if s.challenges[ch].credential == c {
        NewestWins(cfg, s, ch, r.code);
      } else {
        SignInOfAnother(cfg, s, ch, c);
      }
    } else if Rotates(s, r) {
      RotationGainsNothing(cfg, s, r.raw, c);
    } else {
      OthersOnlyRevoke(cfg, s, r);
      RevokingGainsNothing(s, Handle(cfg, s, r).0, c);
    }
  }

  lemma {:induction false} WithinRun(cfg: Settings, s: Store, es: seq<Event>, c: CredentialId, orphans: nat)
    requires cfg.singleSession && Linked(cfg, s) && Within(s, c, orphans)
    ensures Within(Run(cfg, s, es), c, orphans)
    decreases |es|
  {
    if es != [] {
      var s1 := Tick(s, es[0].elapsed);
      TickKeeps(cfg, s, es[0].elapsed);
      assert Live(s1, c) == Live(s, c);
      assert Orphans(s1, c) == Orphans(s, c) by {
        RevokingGainsNothing(s, s1, c);
        RevokingGainsNothing(s1, s, c);
      }
      WithinStep(cfg, s1, es[0].request, c, orphans);
      StepKeeps(cfg, s, es[0]);
      WithinRun(cfg, Step(cfg, s, es[0]).0, es[1..], c, orphans);
    }
  }

  /** Under the policy, live sessions and usable orphans never exceed one plus the orphans of the
      start, in any reachable store. */
  lemma {:induction false} SingleSessionPotential(cfg: Settings, s: Store, es: seq<Event>, c: CredentialId)
    requires cfg.singleSession && Linked(cfg, s) && |Live(s, c)| <= 1
    ensures var t := Run(cfg, s, es);
      |Live(t, c)| + |Orphans(t, c)| <= 1 + |Orphans(s, c)|
  {
    WithinRun(cfg, s, es, c, |Orphans(s, c)|);
  }

  /** Without orphans there is one live session at most. */
  lemma {:induction false} AtMostOneLiveSession(cfg: Settings, s: Store, es: seq<Event>, c: CredentialId,
                                                a: SessionId, b: SessionId)
    requires cfg.singleSession && Linked(cfg, s) && |Live(s, c)| <= 1 && Orphans(s, c) == {}
    requires a in Live(Run(cfg, s, es), c) && b in Live(Run(cfg, s, es), c)
    ensures a == b
  {
    SingleSessionPotential(cfg, s, es, c);
    if a != b {
      Subset({a, b}, Live(Run(cfg, s, es), c));
    }
  }
}
