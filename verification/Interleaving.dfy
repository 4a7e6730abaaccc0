/** `rotate_refresh` has two transactions, and other requests run between them
    (services.py:632-694). This is the service with that gap open: any number of rotations in
    flight, crashes between the two commits, and every other request in between. */
module Interleaving {
  import opened Settings
  import opened Tables
  import opened Sessions
  import opened Machine
  import opened Invariants
  import opened Shapes

  /** `inFlight` holds the rotations between their two commits, `lost` those that crashed there;
      `chains` records the tokens of each family in the order they were issued. */
  datatype Race = Race(
    store: Store,
    inFlight: map<nat, Claim>,
    lost: map<nat, Claim>,
    chains: map<FamilyId, seq<Secret>>)

  datatype Move =
    | Begin(pid: nat, elapsed: nat, raw: Secret)
    | Finish(pid: nat, elapsed: nat)
    | Crash(pid: nat)
    | Serve(event: Event)

  ghost function BeginRotation(q: Race, pid: nat, raw: Secret): Race {
    var (t, claim) := ClaimToken(q.store, raw);
    q.(store := t, inFlight := if claim.Claimed? then q.inFlight[pid := claim] else q.inFlight)
  }

  ghost function EndRotation(cfg: Settings, q: Race, pid: nat): Race
    requires pid in q.inFlight && q.inFlight[pid].Claimed?
  {
    var claim := q.inFlight[pid];
    var (t, o) := FinishRotation(cfg, q.store, claim);
    var chain := if claim.family in q.chains then q.chains[claim.family] else [];
    q.(store := t, inFlight := q.inFlight - {pid},
       chains := if o.Granted? then q.chains[claim.family := chain + [o.refresh]] else q.chains)
  }

  ghost function ServeOther(cfg: Settings, q: Race, r: Request): Race {
    var (t, o) := Handle(cfg, q.store, r);
    q.(store := t,
       chains := if o.Granted? && o.refresh in t.tokens then q.chains[t.tokens[o.refresh].family := [o.refresh]]
                 else q.chains)
  }

  ghost function Later(q: Race, elapsed: nat): Race {
    q.(store := Tick(q.store, elapsed))
  }

  /** A move that names a rotation in the wrong phase does nothing, and a refresh enters as
      `Begin`, never as `Serve`. */
  ghost function Advance(cfg: Settings, q: Race, m: Move): Race {
    match m
    case Begin(pid, elapsed, raw) =>
      if pid in q.inFlight || pid in q.lost then q else BeginRotation(Later(q, elapsed), pid, raw)
    case Finish(pid, elapsed) =>
      if pid in q.inFlight && q.inFlight[pid].Claimed? then EndRotation(cfg, Later(q, elapsed), pid) else q
    case Crash(pid) =>
      if pid in q.inFlight then q.(inFlight := q.inFlight - {pid}, lost := q.lost[pid := q.inFlight[pid]]) else q
    case Serve(e) =>
      if e.request.DoRefresh? then q else ServeOther(cfg, Later(q, e.elapsed), e.request)
  }

  ghost function RunRace(cfg: Settings, q: Race, ms: seq<Move>): Race
    decreases |ms|
  {
    if ms == [] then q else RunRace(cfg, Advance(cfg, q, ms[0]), ms[1..])
  }

  // --- The invariant --------------------------------------------------------

  ghost function Pending(q: Race): map<nat, Claim> {
    q.inFlight + q.lost
  }

  ghost predicate NoRepeats(chain: seq<Secret>) {
    forall i, j | 0 <= i < j < |chain| :: chain[i] != chain[j]
  }

  function Last(chain: seq<Secret>): Secret
    requires chain != []
  {
    chain[|chain| - 1]
  }

  /** A chain lists tokens of its family, all but the last of them spent. */
  ghost predicate ChainOf(tokens: TokenTable, f: FamilyId, chain: seq<Secret>) {
    && chain != []
    && NoRepeats(chain)
    && (forall i | 0 <= i < |chain| ::
          chain[i] in tokens && tokens[chain[i]].family == f && (i < |chain| - 1 ==> tokens[chain[i]].rotated))
  }

  /** Every token is in the chain of its family, and every chain is one. */
  ghost predicate Listed(tokens: TokenTable, chains: map<FamilyId, seq<Secret>>) {
    && (forall raw | raw in tokens :: tokens[raw].family in chains && raw in chains[tokens[raw].family])
    && (forall f | f in chains :: ChainOf(tokens, f, chains[f]))
  }

  ghost predicate HoldsClaim(pending: map<nat, Claim>, pid: nat, f: FamilyId) {
    pid in pending && pending[pid].Claimed? && pending[pid].family == f
  }

  /** A rotation past its claim holds the last token of a chain. */
  ghost predicate HoldsLast(chains: map<FamilyId, seq<Secret>>, claim: Claim) {
    && claim.Claimed? && claim.family in chains && chains[claim.family] != []
    && claim.raw == Last(chains[claim.family])
  }

  /** The last token of a chain is spent exactly when one rotation holds it. */
  ghost predicate Held(tokens: TokenTable, pending: map<nat, Claim>, chains: map<FamilyId, seq<Secret>>)
    requires Listed(tokens, chains)
  {
    && (forall pid | pid in pending :: HoldsLast(chains, pending[pid]))
    && (forall p1, p2, f | HoldsClaim(pending, p1, f) && HoldsClaim(pending, p2, f) :: p1 == p2)
    && (forall f | f in chains :: tokens[Last(chains[f])].rotated <==> exists pid :: HoldsClaim(pending, pid, f))
  }

  ghost predicate ClaimsRooted(s: Store, pending: map<nat, Claim>) {
    forall pid | pid in pending :: ClaimRooted(s, pending[pid])
  }

  ghost predicate ChainsSound(tokens: TokenTable, pending: map<nat, Claim>, chains: map<FamilyId, seq<Secret>>) {
    Listed(tokens, chains) && Held(tokens, pending, chains)
  }

  ghost predicate StoreSound(cfg: Settings, s: Store, pending: map<nat, Claim>) {
    Rooted(cfg, s) && ClaimsRooted(s, pending)
  }

  ghost predicate RaceSound(cfg: Settings, q: Race) {
    && q.inFlight.Keys !! q.lost.Keys
    && StoreSound(cfg, q.store, Pending(q))
    && ChainsSound(q.store.tokens, Pending(q), q.chains)
  }

  // --- What each kind of move does to tokens and chains ----------------------

  /** Revoking moves no token and spends none. */
  lemma RevokingKeepsChains(a: TokenTable, b: TokenTable, pending: map<nat, Claim>, chains: map<FamilyId, seq<Secret>>)
    requires Listed(a, chains) && Held(a, pending, chains) && TokensOnlyRevoked(a, b)
    ensures Listed(b, chains) && Held(b, pending, chains)
  {
    forall f | f in chains ensures ChainOf(b, f, chains[f]) {
      assert ChainOf(a, f, chains[f]);
    }
  }

  /** A new family is a chain of one. */
  lemma OpeningKeepsChains(a: TokenTable, pending: map<nat, Claim>, chains: map<FamilyId, seq<Secret>>,
                           raw: Secret, token: RefreshToken)
    requires Listed(a, chains) && Held(a, pending, chains)
    requires raw !in a && token.family !in chains && !token.rotated
    ensures var b, k := a[raw := token], chains[token.family := [raw]]; Listed(b, k) && Held(b, pending, k)
  {
    var b, k := a[raw := token], chains[token.family := [raw]];
    forall f | f in k ensures ChainOf(b, f, k[f]) {
      if f != token.family {
        assert ChainOf(a, f, chains[f]);
      }
    }
    forall pid | pid in pending ensures HoldsLast(k, pending[pid]) {
      assert HoldsLast(chains, pending[pid]);
    }
    forall f | f in k ensures b[Last(k[f])].rotated <==> exists pid :: HoldsClaim(pending, pid, f) {
      if f != token.family {
        assert ChainOf(a, f, chains[f]);
      }
    }
  }

  lemma UnspentIsLast(a: TokenTable, chains: map<FamilyId, seq<Secret>>, raw: Secret)
    requires Listed(a, chains) && raw in a && !a[raw].rotated
    ensures raw == Last(chains[a[raw].family])
  {
    var chain := chains[a[raw].family];
    assert ChainOf(a, a[raw].family, chain);
    var i :| 0 <= i < |chain| && chain[i] == raw;
  }

  /** Claiming takes the last token of a chain nobody held. */
  lemma ClaimingKeepsChains(a: TokenTable, pending: map<nat, Claim>, chains: map<FamilyId, seq<Secret>>,
                            pid: nat, claim: Claim)
    requires Listed(a, chains) && Held(a, pending, chains) && pid !in pending
    requires claim.Claimed? && claim.raw in a && !a[claim.raw].rotated && a[claim.raw].family == claim.family
    ensures var b := a[claim.raw := a[claim.raw].(rotated := true)];
      Listed(b, chains) && Held(b, pending[pid := claim], chains)
  {
    var b, k := a[claim.raw := a[claim.raw].(rotated := true)], pending[pid := claim];
    UnspentIsLast(a, chains, claim.raw);
    forall f | f in chains ensures ChainOf(b, f, chains[f]) {
      assert ChainOf(a, f, chains[f]);
    }
    assert forall x :: !HoldsClaim(pending, x, claim.family);
    forall p1, p2, f | HoldsClaim(k, p1, f) && HoldsClaim(k, p2, f) ensures p1 == p2 {
      if p1 != pid && p2 != pid {
        assert HoldsClaim(pending, p1, f) && HoldsClaim(pending, p2, f);
      } else if p1 != pid {
        assert HoldsClaim(pending, p1, f);
      } else if p2 != pid {
        assert HoldsClaim(pending, p2, f);
      }
    }
    forall f | f in chains ensures b[Last(chains[f])].rotated <==> exists x :: HoldsClaim(k, x, f) {
      assert ChainOf(a, f, chains[f]);
      if f == claim.family {
        assert HoldsClaim(k, pid, f);
      } else {
        assert forall x :: HoldsClaim(k, x, f) <==> HoldsClaim(pending, x, f);
      }
    }
  }

  /** Finishing appends the successor and lets go of the chain. */
  lemma FinishingKeepsChains(a: TokenTable, pending: map<nat, Claim>, chains: map<FamilyId, seq<Secret>>,
                             pid: nat, child: Secret, token: RefreshToken)
    requires Listed(a, chains) && Held(a, pending, chains) && pid in pending
    requires child !in a && token.family == pending[pid].family && !token.rotated
    ensures var f := token.family; var b, k := a[child := token], chains[f := chains[f] + [child]];
      Listed(b, k) && Held(b, pending - {pid}, k)
  {
    var f0 := token.family;
    var b, k, rest := a[child := token], chains[f0 := chains[f0] + [child]], pending - {pid};
    assert HoldsClaim(pending, pid, f0) && HoldsLast(chains, pending[pid]);
    forall f | f in k ensures ChainOf(b, f, k[f]) {
      assert ChainOf(a, f, chains[f]);
    }
    assert forall x, f :: HoldsClaim(rest, x, f) ==> HoldsClaim(pending, x, f);
    forall x | x in rest ensures HoldsLast(k, rest[x]) {
      assert HoldsLast(chains, pending[x]);
      assert HoldsClaim(pending, x, pending[x].family);
    }
    forall raw | raw in b ensures b[raw].family in k && raw in k[b[raw].family] {
      if raw == child {
        assert k[f0][|k[f0]| - 1] == child;
      }
    }
    forall f | f in k ensures b[Last(k[f])].rotated <==> exists x :: HoldsClaim(rest, x, f) {
      assert ChainOf(a, f, chains[f]);
      if f != f0 {
        assert forall x :: HoldsClaim(rest, x, f) <==> HoldsClaim(pending, x, f);
      }
    }
  }

  // --- Every move keeps the race sound ----------------------------------------

  /** Claims outlive whatever only revokes or grows. */
  lemma ClaimsStayRooted(s: Store, t: Store, pending: map<nat, Claim>)
    requires ClaimsRooted(s, pending) && StandingKept(s, t) && s.next <= t.next
    requires forall sid | sid in s.sessions ::
      sid in t.sessions && (s.sessions[sid].family.Some? ==> t.sessions[sid].family == s.sessions[sid].family)
    ensures ClaimsRooted(t, pending)
  {
    forall pid | pid in pending ensures ClaimRooted(t, pending[pid]) {
      assert ClaimRooted(s, pending[pid]);
    }
  }

  lemma LaterSound(cfg: Settings, q: Race, elapsed: nat)
    requires RaceSound(cfg, q)
    ensures RaceSound(cfg, Later(q, elapsed))
  {
    assert Pending(Later(q, elapsed)) == Pending(q);
    ClaimsStayRooted(q.store, Later(q, elapsed).store, Pending(q));
  }

  lemma CrashSound(cfg: Settings, q: Race, pid: nat)
    requires RaceSound(cfg, q) && pid in q.inFlight
    ensures RaceSound(cfg, Advance(cfg, q, Crash(pid)))
  {
    PendingAfterCrash(cfg, q, pid);
  }

  lemma PendingAfterCrash(cfg: Settings, q: Race, pid: nat)
    requires pid in q.inFlight && q.inFlight.Keys !! q.lost.Keys
    ensures var k := Advance(cfg, q, Crash(pid));
      Pending(k) == Pending(q) && k.inFlight.Keys !! k.lost.Keys && k.store == q.store && k.chains == q.chains
  {
  }

  lemma ClaimStoreSound(cfg: Settings, s: Store, pending: map<nat, Claim>, pid: nat, raw: Secret)
    requires StoreSound(cfg, s, pending)
    ensures StoreSound(cfg, ClaimToken(s, raw).0, pending)
    ensures Wins(s, raw) ==> StoreSound(cfg, ClaimToken(s, raw).0, pending[pid := ClaimToken(s, raw).1])
  {
    ClaimRoots(cfg, s, raw);
    ClaimsStayRooted(s, ClaimToken(s, raw).0, pending);
  }

  lemma WonClaimChainsSound(s: Store, pending: map<nat, Claim>, chains: map<FamilyId, seq<Secret>>, pid: nat,
                            raw: Secret)
    requires ChainsSound(s.tokens, pending, chains) && pid !in pending && Wins(s, raw)
    ensures ChainsSound(ClaimToken(s, raw).0.tokens, pending[pid := ClaimToken(s, raw).1], chains)
  {
    var claim := ClaimToken(s, raw).1;
    assert ClaimToken(s, raw).0.tokens == s.tokens[raw := s.tokens[raw].(rotated := true)];
    ClaimingKeepsChains(s.tokens, pending, chains, pid, claim);
  }

  lemma RefusedClaimChainsSound(s: Store, pending: map<nat, Claim>, chains: map<FamilyId, seq<Secret>>, raw: Secret)
    requires ChainsSound(s.tokens, pending, chains) && !Wins(s, raw)
    ensures ChainsSound(ClaimToken(s, raw).0.tokens, pending, chains)
  {
    RefusedClaimOnlyRevokes(s, raw);
    RevokingKeepsChains(s.tokens, ClaimToken(s, raw).0.tokens, pending, chains);
  }

  lemma PendingAfterBegin(q: Race, pid: nat, raw: Secret)
    requires pid !in q.inFlight && pid !in q.lost && q.inFlight.Keys !! q.lost.Keys
    ensures var k := BeginRotation(q, pid, raw);
      && k.store == ClaimToken(q.store, raw).0 && k.chains == q.chains && k.inFlight.Keys !! k.lost.Keys
      && Pending(k) == if Wins(q.store, raw) then Pending(q)[pid := ClaimToken(q.store, raw).1] else Pending(q)
  {
  }

  lemma BeginSound(cfg: Settings, q: Race, pid: nat, raw: Secret)
    requires RaceSound(cfg, q) && pid !in q.inFlight && pid !in q.lost
    ensures RaceSound(cfg, BeginRotation(q, pid, raw))
  {
    PendingAfterBegin(q, pid, raw);
    ClaimStoreSound(cfg, q.store, Pending(q), pid, raw);
    if Wins(q.store, raw) {
      WonClaimChainsSound(q.store, Pending(q), q.chains, pid, raw);
    } else {
      RefusedClaimChainsSound(q.store, Pending(q), q.chains, raw);
    }
  }

  lemma FinishStoreSound(cfg: Settings, s: Store, pending: map<nat, Claim>, pid: nat)
    requires StoreSound(cfg, s, pending) && pid in pending
    ensures pending[pid].Claimed? && StoreSound(cfg, FinishRotation(cfg, s, pending[pid]).0, pending - {pid})
  {
    assert ClaimRooted(s, pending[pid]);
    FinishShape(cfg, s, pending[pid]);
    FinishedRoots(cfg, s, pending[pid]);
    ClaimsStayRooted(s, Finished(cfg, s, pending[pid]), pending);
  }

  lemma FinishChainsSound(cfg: Settings, s: Store, pending: map<nat, Claim>, chains: map<FamilyId, seq<Secret>>,
                          pid: nat)
    requires Drawn(s) && pid in pending && Tied(s, pending[pid]) && ChainsSound(s.tokens, pending, chains)
    ensures var f := pending[pid].family; var (t, o) := FinishRotation(cfg, s, pending[pid]);
      && HoldsLast(chains, pending[pid])
      && o.Granted? && o.refresh !in s.tokens
      && ChainsSound(t.tokens, pending - {pid}, chains[f := chains[f] + [o.refresh]])
  {
    var claim := pending[pid];
    FinishShape(cfg, s, claim);
    var child := ChildOf(s, claim);
    assert HoldsLast(chains, claim);
    FinishingKeepsChains(s.tokens, pending, chains, pid, child, Finished(cfg, s, claim).tokens[child]);
  }

  lemma PendingAfterFinish(cfg: Settings, q: Race, pid: nat)
    requires pid in q.inFlight && q.inFlight[pid].Claimed? && q.inFlight.Keys !! q.lost.Keys
    ensures pid in Pending(q) && Pending(q)[pid] == q.inFlight[pid]
    ensures var k := EndRotation(cfg, q, pid);
      Pending(k) == Pending(q) - {pid} && k.inFlight.Keys !! k.lost.Keys
  {
  }

  lemma HeldClaims(cfg: Settings, q: Race, pid: nat)
    requires RaceSound(cfg, q) && pid in q.inFlight
    ensures ClaimRooted(q.store, q.inFlight[pid]) && HoldsLast(q.chains, q.inFlight[pid])
  {
    assert pid in Pending(q) && Pending(q)[pid] == q.inFlight[pid];
  }

  lemma EndSound(cfg: Settings, q: Race, pid: nat)
    requires RaceSound(cfg, q) && pid in q.inFlight
    ensures q.inFlight[pid].Claimed? && RaceSound(cfg, EndRotation(cfg, q, pid))
  {
    HeldClaims(cfg, q, pid);
    PendingAfterFinish(cfg, q, pid);
    FinishStoreSound(cfg, q.store, Pending(q), pid);
    FinishChainsSound(cfg, q.store, Pending(q), q.chains, pid);
  }

  lemma ChainsAreDrawn(s: Store, chains: map<FamilyId, seq<Secret>>)
    requires Drawn(s) && Listed(s.tokens, chains)
    ensures forall f | f in chains :: f < s.next
  {
    forall f | f in chains ensures f < s.next {
      assert ChainOf(s.tokens, f, chains[f]);
      assert chains[f][0] in s.tokens;
    }
  }

  lemma ClearingKeepsChains(cfg: Settings, s: Store, pending: map<nat, Claim>, chains: map<FamilyId, seq<Secret>>,
                            ch: ChallengeId)
    requires ch in s.challenges && s.challenges[ch].credential in s.credentials
    requires ChainsSound(s.tokens, pending, chains)
    ensures ChainsSound(Cleared(cfg, s, ch).tokens, pending, chains)
  {
    ClearedOnlyRevokes(cfg, s, ch);
    RevokingKeepsChains(s.tokens, Cleared(cfg, s, ch).tokens, pending, chains);
  }

  /** `b` is `a` with the first token of a new family. */
  ghost predicate OpensFamily(a: TokenTable, b: TokenTable, raw: Secret, f: FamilyId) {
    raw !in a && raw in b && b == a[raw := b[raw]] && b[raw].family == f && !b[raw].rotated
  }

  lemma SignedInTokens(cfg: Settings, s: Store, ch: ChallengeId)
    requires Drawn(s) && ch in s.challenges && s.challenges[ch].credential in s.credentials
    ensures OpensFamily(Cleared(cfg, s, ch).tokens, SignedIn(cfg, s, ch).tokens, s.next + 1, s.next + 2)
  {
    ClearedOnlyRevokes(cfg, s, ch);
  }

  lemma OpeningSound(a: TokenTable, b: TokenTable, pending: map<nat, Claim>, chains: map<FamilyId, seq<Secret>>,
                     raw: Secret, f: FamilyId)
    requires ChainsSound(a, pending, chains) && OpensFamily(a, b, raw, f) && f !in chains
    ensures ChainsSound(b, pending, chains[f := [raw]])
  {
    OpeningKeepsChains(a, pending, chains, raw, b[raw]);
  }

  lemma NewFamilyIsUnlisted(s: Store, chains: map<FamilyId, seq<Secret>>)
    requires Drawn(s) && Listed(s.tokens, chains)
    ensures s.next + 2 !in chains
  {
    ChainsAreDrawn(s, chains);
  }

  lemma SignInChainsSound(cfg: Settings, s: Store, pending: map<nat, Claim>, chains: map<FamilyId, seq<Secret>>,
                          ch: ChallengeId)
    requires Drawn(s) && ch in s.challenges && s.challenges[ch].credential in s.credentials
    requires ChainsSound(s.tokens, pending, chains)
    ensures ChainsSound(SignedIn(cfg, s, ch).tokens, pending, chains[s.next + 2 := [s.next + 1]])
  {
    NewFamilyIsUnlisted(s, chains);
    ClearingKeepsChains(cfg, s, pending, chains, ch);
    SignedInTokens(cfg, s, ch);
    OpeningSound(Cleared(cfg, s, ch).tokens, SignedIn(cfg, s, ch).tokens, pending, chains, s.next + 1, s.next + 2);
  }

  lemma SignInStoreSound(cfg: Settings, s: Store, pending: map<nat, Claim>, ch: ChallengeId)
    requires StoreSound(cfg, s, pending) && ch in s.challenges
    ensures StoreSound(cfg, SignedIn(cfg, s, ch), pending)
  {
    SignedInRoots(cfg, s, ch);
    SignInKeepsStanding(cfg, s, ch);
    ClaimsStayRooted(s, SignedIn(cfg, s, ch), pending);
  }

  lemma AfterSignIn(cfg: Settings, q: Race, r: Request)
    requires SignsIn(q.store, r)
    ensures var k := ServeOther(cfg, q, r);
      && k.store == SignedIn(cfg, q.store, r.challenge)
      && k.chains == q.chains[q.store.next + 2 := [q.store.next + 1]]
      && k.inFlight == q.inFlight && k.lost == q.lost
  {
    SignInShape(cfg, q.store, r.challenge, r.code);
  }

  lemma ServeSignInSound(cfg: Settings, q: Race, r: Request)
    requires RaceSound(cfg, q) && SignsIn(q.store, r)
    ensures RaceSound(cfg, ServeOther(cfg, q, r))
  {
    AfterSignIn(cfg, q, r);
    SignInStoreSound(cfg, q.store, Pending(q), r.challenge);
    SignInChainsSound(cfg, q.store, Pending(q), q.chains, r.challenge);
  }

  lemma OtherStoreSound(cfg: Settings, s: Store, pending: map<nat, Claim>, r: Request)
    requires StoreSound(cfg, s, pending) && !Rotates(s, r) && !SignsIn(s, r)
    ensures StoreSound(cfg, Handle(cfg, s, r).0, pending)
  {
    OthersOnlyRevoke(cfg, s, r);
    HandleRoots(cfg, s, r);
    HandleKeepsStanding(cfg, s, r);
    SupplyGrows(cfg, s, r);
    ClaimsStayRooted(s, Handle(cfg, s, r).0, pending);
  }

  lemma OtherChainsSound(cfg: Settings, s: Store, pending: map<nat, Claim>, chains: map<FamilyId, seq<Secret>>,
                         r: Request)
    requires Rooted(cfg, s) && ChainsSound(s.tokens, pending, chains) && !Rotates(s, r) && !SignsIn(s, r)
    ensures ChainsSound(Handle(cfg, s, r).0.tokens, pending, chains) && !Handle(cfg, s, r).1.Granted?
  {
    OthersOnlyRevoke(cfg, s, r);
    RevokingKeepsChains(s.tokens, Handle(cfg, s, r).0.tokens, pending, chains);
  }

  lemma ServeOtherSound(cfg: Settings, q: Race, r: Request)
    requires RaceSound(cfg, q) && !r.DoRefresh? && !SignsIn(q.store, r)
    ensures RaceSound(cfg, ServeOther(cfg, q, r))
  {
    OtherStoreSound(cfg, q.store, Pending(q), r);
    OtherChainsSound(cfg, q.store, Pending(q), q.chains, r);
  }

  lemma AdvanceSound(cfg: Settings, q: Race, m: Move)
    requires RaceSound(cfg, q)
    ensures RaceSound(cfg, Advance(cfg, q, m))
  {
    match m {
      case Begin(pid, elapsed, raw) =>
        LaterSound(cfg, q, elapsed);
        if pid !in q.inFlight && pid !in q.lost {
          BeginSound(cfg, Later(q, elapsed), pid, raw);
        }
      case Finish(pid, elapsed) =>
        LaterSound(cfg, q, elapsed);
        if pid in q.inFlight {
          EndSound(cfg, Later(q, elapsed), pid);
        }
      case Crash(pid) =>
        if pid in q.inFlight {
          CrashSound(cfg, q, pid);
        }
      case Serve(e) =>
        LaterSound(cfg, q, e.elapsed);
        if !e.request.DoRefresh? {
          if SignsIn(Later(q, e.elapsed).store, e.request) {
            ServeSignInSound(cfg, Later(q, e.elapsed), e.request);
          } else {
            ServeOtherSound(cfg, Later(q, e.elapsed), e.request);
          }
        }
    }
  }

  lemma {:induction false} RaceStaysSound(cfg: Settings, q: Race, ms: seq<Move>)
    requires RaceSound(cfg, q)
    ensures RaceSound(cfg, RunRace(cfg, q, ms))
    decreases |ms|
  {
    if ms != [] {
      AdvanceSound(cfg, q, ms[0]);
      RaceStaysSound(cfg, Advance(cfg, q, ms[0]), ms[1..]);
    }
  }

  /** A rotation whose two transactions run back to back is the serial one. */
  lemma {:induction false} BackToBackIsRotate(cfg: Settings, q: Race, pid: nat, raw: Secret)
    requires pid !in q.inFlight && pid !in q.lost
    ensures var k := Advance(cfg, Advance(cfg, q, Begin(pid, 0, raw)), Finish(pid, 0));
      && k.store == RotateRefresh(cfg, q.store, raw).0
      && k.inFlight == q.inFlight && k.lost == q.lost
  {
    assert Later(q, 0) == q;
    var k := BeginRotation(q, pid, raw);
    assert Later(k, 0) == k;
    if Wins(q.store, raw) {
      assert k.inFlight - {pid} == q.inFlight;
    }
  }

  // --- Conservation -----------------------------------------------------------

  ghost function Unrotated(q: Race, f: FamilyId): set<Secret> {
    set raw | raw in q.store.tokens && q.store.tokens[raw].family == f && !q.store.tokens[raw].rotated
  }

  ghost function Holders(claims: map<nat, Claim>, f: FamilyId): set<nat> {
    set pid | pid in claims && claims[pid].Claimed? && claims[pid].family == f
  }

  lemma OneOf(f: FamilyId, q: Race, cfg: Settings)
    requires RaceSound(cfg, q) && f in q.chains
    ensures var last := Last(q.chains[f]);
      if q.store.tokens[last].rotated
      then Unrotated(q, f) == {} && exists pid :: Holders(Pending(q), f) == {pid}
      else Unrotated(q, f) == {last} && Holders(Pending(q), f) == {}
  {
    var tokens, pending, last := q.store.tokens, Pending(q), Last(q.chains[f]);
    forall raw | raw in Unrotated(q, f) ensures raw == last {
      UnspentIsLast(tokens, q.chains, raw);
    }
    assert ChainOf(tokens, f, q.chains[f]);
    if tokens[last].rotated {
      var pid: nat :| HoldsClaim(pending, pid, f);
      forall x | x in Holders(pending, f) ensures x == pid {
        assert HoldsClaim(pending, x, f);
      }
      assert Holders(pending, f) == {pid};
    } else {
      forall x | x in Holders(pending, f) ensures false {
        assert HoldsClaim(pending, x, f);
      }
    }
  }

  lemma HoldersSplit(q: Race, f: FamilyId)
    requires q.inFlight.Keys !! q.lost.Keys
    ensures |Holders(q.inFlight, f)| + |Holders(q.lost, f)| == |Holders(Pending(q), f)|
  {
    assert Holders(Pending(q), f) == Holders(q.inFlight, f) + Holders(q.lost, f);
  }

  /** At every moment of every interleaving, each family has exactly one of: a token not yet
      rotated, a rotation claimed and not yet issued, a rotation that crashed in between. */
  lemma {:induction false} Conservation(cfg: Settings, q: Race, ms: seq<Move>, f: FamilyId)
    requires RaceSound(cfg, q) && f in RunRace(cfg, q, ms).chains
    ensures var k := RunRace(cfg, q, ms);
      |Unrotated(k, f)| + |Holders(k.inFlight, f)| + |Holders(k.lost, f)| == 1
  {
    RaceStaysSound(cfg, q, ms);
    var k := RunRace(cfg, q, ms);
    OneOf(f, k, cfg);
    HoldersSplit(k, f);
  }

  ghost predicate CrashFree(ms: seq<Move>) {
    forall m | m in ms :: !m.Crash?
  }

  lemma {:induction false} CrashFreeLosesNothing(cfg: Settings, q: Race, ms: seq<Move>)
    requires CrashFree(ms)
    ensures RunRace(cfg, q, ms).lost == q.lost
    decreases |ms|
  {
    if ms != [] {
      assert !ms[0].Crash?;
      CrashFreeLosesNothing(cfg, Advance(cfg, q, ms[0]), ms[1..]);
    }
  }

  /** Where no rotation is ever lost between its commits, each family always has exactly one token
      not yet rotated or one rotation about to issue it. */
  lemma {:induction false} ConservationWithoutCrashes(cfg: Settings, q: Race, ms: seq<Move>, f: FamilyId)
    requires RaceSound(cfg, q) && q.lost == map[] && CrashFree(ms) && f in RunRace(cfg, q, ms).chains
    ensures var k := RunRace(cfg, q, ms);
      |Unrotated(k, f)| + |Holders(k.inFlight, f)| == 1
  {
    Conservation(cfg, q, ms, f);
    CrashFreeLosesNothing(cfg, q, ms);
  }

  lemma LostStays(cfg: Settings, q: Race, m: Move, pid: nat)
    requires q.inFlight.Keys !! q.lost.Keys && pid in q.lost
    ensures var k := Advance(cfg, q, m); pid in k.lost && k.lost[pid] == q.lost[pid]
  {
  }

  lemma {:induction false} LostForGood(cfg: Settings, q: Race, ms: seq<Move>, pid: nat)
    requires RaceSound(cfg, q) && pid in q.lost
    ensures var k := RunRace(cfg, q, ms); RaceSound(cfg, k) && pid in k.lost && k.lost[pid] == q.lost[pid]
    decreases |ms|
  {
    if ms != [] {
      LostStays(cfg, q, ms[0], pid);
      AdvanceSound(cfg, q, ms[0]);
      LostForGood(cfg, Advance(cfg, q, ms[0]), ms[1..], pid);
    }
  }

  lemma LostLeavesNone(cfg: Settings, q: Race, pid: nat)
    requires RaceSound(cfg, q) && pid in q.lost
    ensures q.lost[pid].Claimed? && Unrotated(q, q.lost[pid].family) == {}
  {
    assert pid in Pending(q) && Pending(q)[pid] == q.lost[pid];
    assert HoldsLast(q.chains, q.lost[pid]);
    var f := q.lost[pid].family;
    assert HoldsClaim(Pending(q), pid, f);
    OneOf(f, q, cfg);
  }

  /** What a crash between the two commits costs: no token of the family is ever rotated again, in any
      interleaving, and presenting any of them, the latest included, is taken for theft and kills it. */
  lemma {:induction false} LostFamilyIsStranded(cfg: Settings, q: Race, ms: seq<Move>, pid: nat, raw: Secret)
    requires RaceSound(cfg, q) && pid in q.lost
    ensures var s := RunRace(cfg, q, ms).store;
      && q.lost[pid].Claimed?
      && (raw in s.tokens && s.tokens[raw].family == q.lost[pid].family ==>
            ClaimToken(s, raw) == (s.(tokens := RevokeFamily(s.tokens, q.lost[pid].family)),
                                   NotClaimed(InvalidRefresh(ReuseDetected))))
  {
    LostForGood(cfg, q, ms, pid);
    var k := RunRace(cfg, q, ms);
    LostLeavesNone(cfg, k, pid);
    if raw in k.store.tokens && k.store.tokens[raw].family == q.lost[pid].family {
      assert raw !in Unrotated(k, q.lost[pid].family);
    }
  }

  // --- Linear chains ----------------------------------------------------------

  ghost predicate Extends(a: map<FamilyId, seq<Secret>>, b: map<FamilyId, seq<Secret>>) {
    forall f | f in a :: f in b && a[f] <= b[f]
  }

  /** A finished rotation issues the one successor of the token it claimed, at the end of its chain. */
  lemma FinishAppends(cfg: Settings, q: Race, pid: nat)
    requires RaceSound(cfg, q) && pid in q.inFlight
    ensures var claim := q.inFlight[pid];
      && claim.Claimed? && claim.family in q.chains && q.chains[claim.family] != []
      && Last(q.chains[claim.family]) == claim.raw
      && EndRotation(cfg, q, pid).chains == q.chains[claim.family := q.chains[claim.family] + [ChildOf(q.store, claim)]]
      && ChildOf(q.store, claim) !in q.store.tokens
  {
    HeldClaims(cfg, q, pid);
    FinishShape(cfg, q.store, q.inFlight[pid]);
  }

  lemma FinishExtends(cfg: Settings, q: Race, pid: nat)
    requires RaceSound(cfg, q) && pid in q.inFlight
    ensures q.inFlight[pid].Claimed? && Extends(q.chains, EndRotation(cfg, q, pid).chains)
  {
    FinishAppends(cfg, q, pid);
  }

  lemma ServeExtends(cfg: Settings, q: Race, r: Request)
    requires RaceSound(cfg, q) && !r.DoRefresh?
    ensures Extends(q.chains, ServeOther(cfg, q, r).chains)
  {
    if SignsIn(q.store, r) {
      AfterSignIn(cfg, q, r);
      ChainsAreDrawn(q.store, q.chains);
    } else {
      OtherChainsSound(cfg, q.store, Pending(q), q.chains, r);
    }
  }

  lemma AdvanceExtends(cfg: Settings, q: Race, m: Move)
    requires RaceSound(cfg, q)
    ensures Extends(q.chains, Advance(cfg, q, m).chains)
  {
    match m {
      case Begin(_, _, _) =>
      case Crash(_) =>
      case Finish(pid, elapsed) =>
        LaterSound(cfg, q, elapsed);
        if pid in q.inFlight {
          FinishExtends(cfg, Later(q, elapsed), pid);
        }
      case Serve(e) =>
        LaterSound(cfg, q, e.elapsed);
        if !e.request.DoRefresh? {
          ServeExtends(cfg, Later(q, e.elapsed), e.request);
        }
    }
  }

  lemma {:induction false} ChainsOnlyGrow(cfg: Settings, q: Race, ms: seq<Move>)
    requires RaceSound(cfg, q)
    ensures Extends(q.chains, RunRace(cfg, q, ms).chains)
    decreases |ms|
  {
    if ms != [] {
      AdvanceExtends(cfg, q, ms[0]);
      AdvanceSound(cfg, q, ms[0]);
      ChainsOnlyGrow(cfg, Advance(cfg, q, ms[0]), ms[1..]);
    }
  }

  /** The token issued right after `a` in some family. */
  ghost predicate Successor(chains: map<FamilyId, seq<Secret>>, a: Secret, b: Secret) {
    exists f, i :: IsNext(chains, f, i, a, b)
  }

  ghost predicate IsNext(chains: map<FamilyId, seq<Secret>>, f: FamilyId, i: nat, a: Secret, b: Secret) {
    f in chains && i + 1 < |chains[f]| && chains[f][i] == a && chains[f][i + 1] == b
  }

  lemma SuccessorIsUnique(tokens: TokenTable, chains: map<FamilyId, seq<Secret>>, a: Secret, b: Secret, c: Secret)
    requires Listed(tokens, chains) && Successor(chains, a, b) && Successor(chains, a, c)
    ensures b == c
  {
    var f, i :| IsNext(chains, f, i, a, b);
    var g, j :| IsNext(chains, g, j, a, c);
    assert ChainOf(tokens, f, chains[f]) && ChainOf(tokens, g, chains[g]);
    assert f == g;
  }

  lemma SuccessorStays(a: map<FamilyId, seq<Secret>>, b: map<FamilyId, seq<Secret>>, x: Secret, y: Secret)
    requires Extends(a, b) && Successor(a, x, y)
    ensures Successor(b, x, y)
  {
    var f, i :| IsNext(a, f, i, x, y);
    assert IsNext(b, f, i, x, y);
  }

  /** Every token has at most one successor, and that one for good. */
  lemma {:induction false} OneSuccessor(cfg: Settings, q: Race, ms: seq<Move>, a: Secret, b: Secret, c: Secret)
    requires RaceSound(cfg, q)
    requires Successor(q.chains, a, b) && Successor(RunRace(cfg, q, ms).chains, a, c)
    ensures b == c
  {
    RaceStaysSound(cfg, q, ms);
    ChainsOnlyGrow(cfg, q, ms);
    SuccessorStays(q.chains, RunRace(cfg, q, ms).chains, a, b);
    SuccessorIsUnique(RunRace(cfg, q, ms).store.tokens, RunRace(cfg, q, ms).chains, a, b, c);
  }
}
