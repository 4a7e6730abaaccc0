/** What stays with a session along its rotations, with rotations in flight: whatever interleaves,
    every grant in a family names the same holder, audience and session. */
module RaceProvenance {
  import opened Options
  import opened Settings
  import opened Tables
  import opened Sessions
  import opened Machine
  import opened Invariants
  import opened Shapes
  import opened Provenance
  import opened Interleaving
  import opened RaceEndings

  // --- Families have one holder and one audience, in any interleaving ---------

  ghost predicate Akin(a: RefreshToken, b: RefreshToken) {
    a.credential == b.credential && a.audience == b.audience
  }

  /** The tokens of one family share holder and audience. */
  ghost predicate OneIdentity(tokens: TokenTable) {
    forall a, b | SameFamily(tokens, a, b) :: Akin(tokens[a], tokens[b])
  }

  /** A claim speaks for the token it took. */
  ghost predicate Faithful(tokens: TokenTable, claim: Claim) {
    && claim.Claimed? && claim.raw in tokens && tokens[claim.raw].family == claim.family
    && tokens[claim.raw].credential == claim.credential && tokens[claim.raw].audience == claim.audience
  }

  ghost predicate AllFaithful(tokens: TokenTable, pending: map<nat, Claim>) {
    forall pid | pid in pending :: Faithful(tokens, pending[pid])
  }

  ghost predicate RaceOfOneIdentity(q: Race) {
    OneIdentity(q.store.tokens) && AllFaithful(q.store.tokens, Pending(q))
  }

  /** Tokens keep family, holder and audience. */
  ghost predicate RowsKept(a: TokenTable, b: TokenTable) {
    forall raw | raw in a :: raw in b && b[raw].family == a[raw].family && Akin(a[raw], b[raw])
  }

  lemma FaithfulStays(a: TokenTable, b: TokenTable, pending: map<nat, Claim>)
    requires AllFaithful(a, pending) && RowsKept(a, b)
    ensures AllFaithful(b, pending)
  {
    forall pid | pid in pending ensures Faithful(b, pending[pid]) {
      assert Faithful(a, pending[pid]);
    }
  }

  lemma SameRowsOneIdentity(a: TokenTable, b: TokenTable)
    requires OneIdentity(a) && RowsKept(a, b) && a.Keys == b.Keys
    ensures OneIdentity(b)
  {
    forall x, y | SameFamily(b, x, y) ensures Akin(b[x], b[y]) {
      assert SameFamily(a, x, y);
    }
  }

  /** A token may join if it is akin to the family it joins. */
  lemma JoiningOneIdentity(a: TokenTable, raw: Secret, token: RefreshToken)
    requires OneIdentity(a) && raw !in a
    requires forall x | x in a && a[x].family == token.family :: Akin(a[x], token)
    ensures OneIdentity(a[raw := token]) && RowsKept(a, a[raw := token])
  {
    var b := a[raw := token];
    forall x, y | SameFamily(b, x, y) ensures Akin(b[x], b[y]) {
      if x != raw && y != raw {
        assert SameFamily(a, x, y);
      }
    }
  }

  lemma RevokedOneIdentity(a: TokenTable, b: TokenTable, pending: map<nat, Claim>)
    requires OneIdentity(a) && AllFaithful(a, pending) && TokensOnlyRevoked(a, b)
    ensures OneIdentity(b) && AllFaithful(b, pending)
  {
    assert RowsKept(a, b);
    SameRowsOneIdentity(a, b);
    FaithfulStays(a, b, pending);
  }

  lemma BeginOneIdentity(q: Race, pid: nat, raw: Secret)
    requires RaceOfOneIdentity(q) && pid !in q.inFlight && pid !in q.lost && q.inFlight.Keys !! q.lost.Keys
    ensures RaceOfOneIdentity(BeginRotation(q, pid, raw))
  {
    var t := ClaimToken(q.store, raw).0;
    PendingAfterBegin(q, pid, raw);
    if Wins(q.store, raw) {
      assert t.tokens == q.store.tokens[raw := q.store.tokens[raw].(rotated := true)];
      SameRowsOneIdentity(q.store.tokens, t.tokens);
      FaithfulStays(q.store.tokens, t.tokens, Pending(q));
    } else {
      RefusedClaimOnlyRevokes(q.store, raw);
      RevokedOneIdentity(q.store.tokens, t.tokens, Pending(q));
    }
  }

  lemma FinishOneIdentity(cfg: Settings, s: Store, pending: map<nat, Claim>, pid: nat)
    requires Rooted(cfg, s) && OneIdentity(s.tokens) && AllFaithful(s.tokens, pending) && pid in pending
    ensures var t := Finished(cfg, s, pending[pid]);
      OneIdentity(t.tokens) && AllFaithful(t.tokens, pending - {pid})
  {
    var claim := pending[pid];
    assert Faithful(s.tokens, claim);
    var token := Finished(cfg, s, claim).tokens[ChildOf(s, claim)];
    forall x | x in s.tokens && s.tokens[x].family == claim.family ensures Akin(s.tokens[x], token) {
      assert SameFamily(s.tokens, x, claim.raw);
    }
    JoiningOneIdentity(s.tokens, ChildOf(s, claim), token);
    FaithfulStays(s.tokens, Finished(cfg, s, claim).tokens, pending);
  }

  lemma EndOneIdentity(cfg: Settings, q: Race, pid: nat)
    requires RaceSound(cfg, q) && RaceOfOneIdentity(q) && pid in q.inFlight
    ensures q.inFlight[pid].Claimed? && RaceOfOneIdentity(EndRotation(cfg, q, pid))
  {
    HeldClaims(cfg, q, pid);
    FinishShape(cfg, q.store, q.inFlight[pid]);
    PendingAfterFinish(cfg, q, pid);
    FinishOneIdentity(cfg, q.store, Pending(q), pid);
  }

  lemma SignInOneIdentity(cfg: Settings, s: Store, pending: map<nat, Claim>, ch: ChallengeId)
    requires Drawn(s) && ch in s.challenges && s.challenges[ch].credential in s.credentials
    requires OneIdentity(s.tokens) && AllFaithful(s.tokens, pending)
    ensures OneIdentity(SignedIn(cfg, s, ch).tokens) && AllFaithful(SignedIn(cfg, s, ch).tokens, pending)
  {
    var base, t := Cleared(cfg, s, ch).tokens, SignedIn(cfg, s, ch).tokens;
    ClearedOnlyRevokes(cfg, s, ch);
    RevokedOneIdentity(s.tokens, base, pending);
    JoiningOneIdentity(base, s.next + 1, t[s.next + 1]);
    FaithfulStays(base, t, pending);
  }

  lemma ServeOneIdentity(cfg: Settings, q: Race, r: Request)
    requires RaceSound(cfg, q) && RaceOfOneIdentity(q) && !r.DoRefresh?
    ensures RaceOfOneIdentity(ServeOther(cfg, q, r))
  {
    if SignsIn(q.store, r) {
      AfterSignIn(cfg, q, r);
      SignInOneIdentity(cfg, q.store, Pending(q), r.challenge);
    } else {
      OthersOnlyRevoke(cfg, q.store, r);
      RevokedOneIdentity(q.store.tokens, ServeOther(cfg, q, r).store.tokens, Pending(q));
    }
  }

  lemma AdvanceOneIdentity(cfg: Settings, q: Race, m: Move)
    requires RaceSound(cfg, q) && RaceOfOneIdentity(q)
    ensures RaceOfOneIdentity(Advance(cfg, q, m))
  {
    match m {
      case Begin(pid, elapsed, raw) =>
        if pid !in q.inFlight && pid !in q.lost {
          BeginOneIdentity(Later(q, elapsed), pid, raw);
        }
      case Finish(pid, elapsed) =>
        if pid in q.inFlight {
          LaterSound(cfg, q, elapsed);
          EndOneIdentity(cfg, Later(q, elapsed), pid);
        }
      case Crash(pid) =>
        if pid in q.inFlight {
          PendingAfterCrash(cfg, q, pid);
        }
      case Serve(e) =>
        if !e.request.DoRefresh? {
          LaterSound(cfg, q, e.elapsed);
          ServeOneIdentity(cfg, Later(q, e.elapsed), e.request);
        }
    }
  }

  // --- A family and the access token it answers with --------------------------

  /** The claim will answer with `a`. */
  ghost predicate AnswersWith(claim: Claim, a: AccessToken) {
    claim.Claimed? && claim.credential == a.sub && claim.audience == a.aud && claim.session == Some(a.sid)
  }

  /** Family `f` answers with `a`, and so will every rotation of it past its claim. */
  ghost predicate RaceBound(q: Race, f: FamilyId, a: AccessToken) {
    && Bound(q.store, f, a)
    && (forall pid | HoldsClaim(Pending(q), pid, f) :: AnswersWith(Pending(q)[pid], a))
  }

  lemma BeginKeepsRaceBound(q: Race, pid: nat, raw: Secret, f: FamilyId, a: AccessToken)
    requires OneSessionPerFamily(q.store.sessions) && RaceBound(q, f, a)
    requires pid !in q.inFlight && pid !in q.lost && q.inFlight.Keys !! q.lost.Keys
    ensures RaceBound(BeginRotation(q, pid, raw), f, a)
  {
    var k, t := BeginRotation(q, pid, raw), ClaimToken(q.store, raw).0;
    PendingAfterBegin(q, pid, raw);
    SessionOfFamilyFinds(q.store.sessions, f, a.sid);
    if Wins(q.store, raw) {
      assert t == q.store.(tokens := q.store.tokens[raw := q.store.tokens[raw].(rotated := true)]);
    } else {
      RefusedClaimOnlyRevokes(q.store, raw);
      RevokingKeepsBound(q.store, t, f, a);
    }
    forall x | HoldsClaim(Pending(k), x, f) ensures AnswersWith(Pending(k)[x], a) {
      if !Wins(q.store, raw) || x != pid {
        assert HoldsClaim(Pending(q), x, f);
      }
    }
  }

  lemma FinishKeepsBound(cfg: Settings, s: Store, claim: Claim, f: FamilyId, a: AccessToken)
    requires Rooted(cfg, s) && Tied(s, claim) && Bound(s, f, a)
    requires cfg.ResolveAudience(claim.audience) == claim.audience
    requires claim.family == f ==> AnswersWith(claim, a)
    ensures Bound(Finished(cfg, s, claim), f, a)
    ensures claim.family == f ==> RotationGrant(cfg, s, claim).access == a
  {
  }

  lemma EndKeepsRaceBound(cfg: Settings, q: Race, pid: nat, f: FamilyId, a: AccessToken)
    requires RaceSound(cfg, q) && RaceOfOneIdentity(q) && RaceBound(q, f, a) && pid in q.inFlight
    ensures q.inFlight[pid].Claimed? && RaceBound(EndRotation(cfg, q, pid), f, a)
    ensures q.inFlight[pid].family == f ==> FinishRotation(cfg, q.store, q.inFlight[pid]).1.access == a
  {
    var claim := q.inFlight[pid];
    HeldClaims(cfg, q, pid);
    FinishShape(cfg, q.store, claim);
    PendingAfterFinish(cfg, q, pid);
    assert Faithful(q.store.tokens, Pending(q)[pid]);
    if claim.family == f {
      assert HoldsClaim(Pending(q), pid, f);
    }
    FinishKeepsBound(cfg, q.store, claim, f, a);
    forall x | HoldsClaim(Pending(EndRotation(cfg, q, pid)), x, f)
      ensures AnswersWith(Pending(EndRotation(cfg, q, pid))[x], a)
    {
      assert HoldsClaim(Pending(q), x, f);
    }
  }

  lemma ServeKeepsRaceBound(cfg: Settings, q: Race, r: Request, f: FamilyId, a: AccessToken)
    requires RaceSound(cfg, q) && RaceBound(q, f, a) && !r.DoRefresh?
    ensures RaceBound(ServeOther(cfg, q, r), f, a)
  {
    if SignsIn(q.store, r) {
      AfterSignIn(cfg, q, r);
      SignInKeepsBound(cfg, q.store, r.challenge, f, a);
    } else {
      OthersOnlyRevoke(cfg, q.store, r);
      SupplyGrows(cfg, q.store, r);
      RevokingKeepsBound(q.store, ServeOther(cfg, q, r).store, f, a);
    }
    assert Pending(ServeOther(cfg, q, r)) == Pending(q);
  }

  lemma LaterBound(q: Race, elapsed: nat, f: FamilyId, a: AccessToken)
    requires RaceBound(q, f, a)
    ensures RaceBound(Later(q, elapsed), f, a)
  {
    assert Pending(Later(q, elapsed)) == Pending(q);
  }

  lemma CrashKeepsRaceBound(cfg: Settings, q: Race, pid: nat, f: FamilyId, a: AccessToken)
    requires q.inFlight.Keys !! q.lost.Keys && RaceBound(q, f, a)
    ensures RaceBound(Advance(cfg, q, Crash(pid)), f, a)
  {
    if pid in q.inFlight {
      PendingAfterCrash(cfg, q, pid);
    }
  }

  lemma AdvanceKeepsRaceBound(cfg: Settings, q: Race, m: Move, f: FamilyId, a: AccessToken)
    requires RaceSound(cfg, q) && RaceApart(q) && RaceOfOneIdentity(q) && RaceBound(q, f, a)
    ensures RaceBound(Advance(cfg, q, m), f, a)
  {
    match m {
      case Begin(pid, elapsed, raw) =>
        LaterBound(q, elapsed, f, a);
        if pid !in q.inFlight && pid !in q.lost {
          BeginKeepsRaceBound(Later(q, elapsed), pid, raw, f, a);
        }
      case Finish(pid, elapsed) =>
        LaterBound(q, elapsed, f, a);
        LaterSound(cfg, q, elapsed);
        if pid in q.inFlight {
          EndKeepsRaceBound(cfg, Later(q, elapsed), pid, f, a);
        }
      case Crash(pid) => CrashKeepsRaceBound(cfg, q, pid, f, a);
      case Serve(e) =>
        LaterBound(q, e.elapsed, f, a);
        LaterSound(cfg, q, e.elapsed);
        if !e.request.DoRefresh? {
          ServeKeepsRaceBound(cfg, Later(q, e.elapsed), e.request, f, a);
        }
    }
  }

  /** What a race keeps beside its soundness. */
  ghost predicate Orderly(cfg: Settings, q: Race) {
    RaceSound(cfg, q) && RaceApart(q) && RaceOfOneIdentity(q)
  }

  lemma AdvanceOrderly(cfg: Settings, q: Race, m: Move)
    requires Orderly(cfg, q)
    ensures Orderly(cfg, Advance(cfg, q, m))
  {
    AdvanceSound(cfg, q, m);
    AdvanceKeepsApart(cfg, q, m);
    AdvanceOneIdentity(cfg, q, m);
  }

  lemma {:induction false} RaceStaysBound(cfg: Settings, q: Race, ms: seq<Move>, f: FamilyId, a: AccessToken)
    requires Orderly(cfg, q) && RaceBound(q, f, a)
    ensures Orderly(cfg, RunRace(cfg, q, ms)) && RaceBound(RunRace(cfg, q, ms), f, a)
    decreases |ms|
  {
    if ms != [] {
      AdvanceOrderly(cfg, q, ms[0]);
      AdvanceKeepsRaceBound(cfg, q, ms[0], f, a);
      RaceStaysBound(cfg, Advance(cfg, q, ms[0]), ms[1..], f, a);
    }
  }

  // --- Grants -----------------------------------------------------------------

  /** The move grants access token `a` with a refresh token of family `f`. */
  ghost predicate Grants(cfg: Settings, q: Race, m: Move, f: FamilyId, a: AccessToken) {
    match m
    case Finish(pid, elapsed) =>
      && pid in q.inFlight && q.inFlight[pid].Claimed? && q.inFlight[pid].family == f
      && var o := FinishRotation(cfg, Later(q, elapsed).store, q.inFlight[pid]).1;
      && o.Granted? && o.access == a
    case Serve(e) =>
      && !e.request.DoRefresh?
      && var (t, o) := Handle(cfg, Later(q, e.elapsed).store, e.request);
      && o.Granted? && o.refresh in t.tokens && t.tokens[o.refresh].family == f && o.access == a
    case _ => false
  }

  lemma FinishBinds(cfg: Settings, s: Store, pending: map<nat, Claim>, pid: nat)
    requires Rooted(cfg, s) && OneIdentity(s.tokens) && AllFaithful(s.tokens, pending) && pid in pending
    requires ClaimRooted(s, pending[pid])
    ensures Bound(Finished(cfg, s, pending[pid]), pending[pid].family, RotationGrant(cfg, s, pending[pid]).access)
  {
    var claim := pending[pid];
    assert Faithful(s.tokens, claim);
    forall x | x in s.tokens && s.tokens[x].family == claim.family
      ensures s.tokens[x].credential == claim.credential && s.tokens[x].audience == claim.audience
    {
      assert SameFamily(s.tokens, x, claim.raw);
    }
  }

  lemma EndBinds(cfg: Settings, q: Race, pid: nat)
    requires RaceSound(cfg, q) && RaceOfOneIdentity(q) && pid in q.inFlight
    ensures q.inFlight[pid].Claimed?
    ensures RaceBound(EndRotation(cfg, q, pid), q.inFlight[pid].family,
                      FinishRotation(cfg, q.store, q.inFlight[pid]).1.access)
  {
    var claim, k := q.inFlight[pid], EndRotation(cfg, q, pid);
    HeldClaims(cfg, q, pid);
    FinishShape(cfg, q.store, claim);
    PendingAfterFinish(cfg, q, pid);
    FinishBinds(cfg, q.store, Pending(q), pid);
    assert HoldsClaim(Pending(q), pid, claim.family);
    assert forall x, g :: HoldsClaim(Pending(k), x, g) ==> HoldsClaim(Pending(q), x, g);
  }

  lemma ServeBinds(cfg: Settings, q: Race, r: Request)
    requires RaceSound(cfg, q) && SignsIn(q.store, r)
    ensures RaceBound(ServeOther(cfg, q, r), q.store.next + 2, SignInGrant(cfg, q.store, r.challenge).access)
  {
    AfterSignIn(cfg, q, r);
    SignInBinds(cfg, q.store, r.challenge);
    forall x | x in Pending(q) ensures !HoldsClaim(Pending(q), x, q.store.next + 2) {
      assert ClaimRooted(q.store, Pending(q)[x]);
    }
  }

  lemma ServedGrant(cfg: Settings, q: Race, r: Request)
    requires RaceSound(cfg, q) && !r.DoRefresh? && Handle(cfg, q.store, r).1.Granted?
    ensures SignsIn(q.store, r) && Handle(cfg, q.store, r).1 == SignInGrant(cfg, q.store, r.challenge)
    ensures Handle(cfg, q.store, r).0 == SignedIn(cfg, q.store, r.challenge)
  {
    HandleShaped(cfg, q.store, r);
  }

  lemma GrantBindsRace(cfg: Settings, q: Race, m: Move, f: FamilyId, a: AccessToken)
    requires Orderly(cfg, q) && Grants(cfg, q, m, f, a)
    ensures RaceBound(Advance(cfg, q, m), f, a)
  {
    match m {
      case Finish(pid, elapsed) =>
        LaterSound(cfg, q, elapsed);
        EndBinds(cfg, Later(q, elapsed), pid);
      case Serve(e) =>
        LaterSound(cfg, q, e.elapsed);
        ServedGrant(cfg, Later(q, e.elapsed), e.request);
        ServeBinds(cfg, Later(q, e.elapsed), e.request);
    }
  }

  lemma BoundGrants(cfg: Settings, q: Race, m: Move, f: FamilyId, a: AccessToken, b: AccessToken)
    requires Orderly(cfg, q) && RaceBound(q, f, a) && Grants(cfg, q, m, f, b)
    ensures a == b
  {
    match m {
      case Finish(pid, elapsed) =>
        LaterSound(cfg, q, elapsed);
        LaterBound(q, elapsed, f, a);
        EndKeepsRaceBound(cfg, Later(q, elapsed), pid, f, a);
      case Serve(e) =>
        LaterSound(cfg, q, e.elapsed);
        ServedGrant(cfg, Later(q, e.elapsed), e.request);
    }
  }

  /** In every interleaving, all grants in a family name the same holder, audience and session. */
  lemma {:induction false} GrantsKeepIdentity(cfg: Settings, q: Race, m: Move, ms: seq<Move>, later: Move,
                                              f: FamilyId, a: AccessToken, b: AccessToken)
    requires Orderly(cfg, q)
    ensures Grants(cfg, q, m, f, a) && Grants(cfg, RunRace(cfg, Advance(cfg, q, m), ms), later, f, b) ==> a == b
  {
    if Grants(cfg, q, m, f, a) && Grants(cfg, RunRace(cfg, Advance(cfg, q, m), ms), later, f, b) {
      AdvanceOrderly(cfg, q, m);
      GrantBindsRace(cfg, q, m, f, a);
      RaceStaysBound(cfg, Advance(cfg, q, m), ms, f, a);
      BoundGrants(cfg, RunRace(cfg, Advance(cfg, q, m), ms), later, f, a, b);
    }
  }

  /** A race may begin with nothing in it. */
  lemma EmptyRaceIsOrderly(cfg: Settings)
    ensures Orderly(cfg, Race(EMPTY, map[], map[], map[]))
  {
    EmptyRaceIsSound(cfg);
  }
}
