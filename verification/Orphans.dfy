/** The stores a run may begin with: a deployment older than sessions leaves families with a token
    and no session (tests/test_single_session.py:135-178). */
module Orphans {
  import opened Settings
  import opened Tables
  import opened Sessions
  import opened Invariants
  import opened SingleSession
  import opened Families
  import opened Interleaving
  import opened RaceEndings
  import opened RaceProvenance

  /** A usable token of its own family, with no session behind it. */
  function WithOrphan(s: Store, c: CredentialId, audience: string, expiresAt: int): Store {
    s.(next := s.next + 2,
       tokens := s.tokens[s.next := RefreshToken(c, s.next + 1, audience, expiresAt, false, false)])
  }

  lemma OrphanIsLinked(cfg: Settings, s: Store, c: CredentialId, audience: string, expiresAt: int)
    requires Linked(cfg, s) && Enabled(s, c) && cfg.ResolveAudience(audience) == audience
    ensures Linked(cfg, WithOrphan(s, c, audience, expiresAt))
  {
    var t := WithOrphan(s, c, audience, expiresAt);
    forall a, b | SameFamily(t.tokens, a, b)
      ensures t.tokens[a].credential == t.tokens[b].credential
      ensures t.tokens[a].audience == t.tokens[b].audience
      ensures t.tokens[a].revoked == t.tokens[b].revoked
    {
      if a != s.next && b != s.next {
        assert SameFamily(s.tokens, a, b);
      }
    }
    forall sid, raw | TiedTo(t, sid, raw)
      ensures t.sessions[sid].credential == t.tokens[raw].credential
      ensures t.sessions[sid].audience == t.tokens[raw].audience
      ensures t.sessions[sid].revoked ==> t.tokens[raw].revoked
    {
      if raw != s.next {
        assert TiedTo(s, sid, raw);
      }
    }
  }

  /** The ledger gains a chain whose current token is the orphan. */
  lemma OrphanSimulates(s: Store, c: CredentialId, audience: string, expiresAt: int, l: Ledger)
    requires Drawn(s) && Simulates(s, l)
    ensures Simulates(WithOrphan(s, c, audience, expiresAt),
      Ledger(l.family[s.next := s.next + 1], l.chains[s.next + 1 := Chain(c, s.next, expiresAt, false)]))
  {
    var t := WithOrphan(s, c, audience, expiresAt);
    OpenSimulates(s, t, l, s.next + 1, s.next, t.tokens[s.next]);
  }

  /** It is exactly one more usable orphan of its holder, none of anybody else's, and no live session. */
  lemma OrphanCounts(s: Store, c: CredentialId, audience: string, expiresAt: int, d: CredentialId)
    requires Drawn(s)
    ensures var t := WithOrphan(s, c, audience, expiresAt);
      && Live(t, d) == Live(s, d)
      && SingleSession.Orphans(t, d) == SingleSession.Orphans(s, d) + (if d == c then {s.next + 1} else {})
      && s.next + 1 !in SingleSession.Orphans(s, d)
  {
    var t := WithOrphan(s, c, audience, expiresAt);
    forall f ensures HasSession(t, f) == HasSession(s, f) && (f == s.next + 1 ==> !HasSession(s, f)) {
      TiesPersist(s, t, f);
      TiesPersist(t, s, f);
    }
    forall f | f in SingleSession.Orphans(s, d) ensures f in SingleSession.Orphans(t, d) && f != s.next + 1 {
      var raw :| raw in s.tokens && IsOrphan(s, d, raw) && s.tokens[raw].family == f;
      InOrphans(t, d, raw);
    }
    forall f | f in SingleSession.Orphans(t, d)
      ensures f in SingleSession.Orphans(s, d) || (d == c && f == s.next + 1)
    {
      var raw :| raw in t.tokens && IsOrphan(t, d, raw) && t.tokens[raw].family == f;
      if raw != s.next {
        InOrphans(s, d, raw);
      }
    }
    if d == c {
      InOrphans(t, c, s.next);
    }
  }

  lemma OrphanRoots(cfg: Settings, s: Store, c: CredentialId, audience: string, expiresAt: int)
    requires Rooted(cfg, s) && c in s.credentials && cfg.ResolveAudience(audience) == audience
    ensures Rooted(cfg, WithOrphan(s, c, audience, expiresAt))
  {
  }

  lemma OrphanStoreSound(cfg: Settings, s: Store, pending: map<nat, Claim>, c: CredentialId, audience: string,
                         expiresAt: int)
    requires StoreSound(cfg, s, pending) && c in s.credentials && cfg.ResolveAudience(audience) == audience
    ensures StoreSound(cfg, WithOrphan(s, c, audience, expiresAt), pending)
  {
    OrphanRoots(cfg, s, c, audience, expiresAt);
    ClaimsStayRooted(s, WithOrphan(s, c, audience, expiresAt), pending);
  }

  lemma OrphanChainsSound(s: Store, pending: map<nat, Claim>, chains: map<FamilyId, seq<Secret>>,
                          c: CredentialId, audience: string, expiresAt: int)
    requires Drawn(s) && ChainsSound(s.tokens, pending, chains)
    ensures ChainsSound(WithOrphan(s, c, audience, expiresAt).tokens, pending, chains[s.next + 1 := [s.next]])
  {
    ChainsAreDrawn(s, chains);
    OpeningSound(s.tokens, WithOrphan(s, c, audience, expiresAt).tokens, pending, chains, s.next, s.next + 1);
  }

  lemma OrphanOneIdentity(s: Store, pending: map<nat, Claim>, c: CredentialId, audience: string, expiresAt: int)
    requires Drawn(s) && OneIdentity(s.tokens) && AllFaithful(s.tokens, pending)
    ensures var t := WithOrphan(s, c, audience, expiresAt); OneIdentity(t.tokens) && AllFaithful(t.tokens, pending)
  {
    var t := WithOrphan(s, c, audience, expiresAt);
    JoiningOneIdentity(s.tokens, s.next, t.tokens[s.next]);
    FaithfulStays(s.tokens, t.tokens, pending);
  }

  /** A race may hold orphans too: the forged token is a chain of one that nobody rotates yet. */
  lemma OrphanRaces(cfg: Settings, q: Race, c: CredentialId, audience: string, expiresAt: int)
    requires RaceSound(cfg, q) && RaceApart(q)
    requires c in q.store.credentials && cfg.ResolveAudience(audience) == audience
    ensures var f := q.store.next + 1;
      var k := q.(store := WithOrphan(q.store, c, audience, expiresAt), chains := q.chains[f := [q.store.next]]);
      RaceSound(cfg, k) && RaceApart(k) && (RaceOfOneIdentity(q) ==> RaceOfOneIdentity(k))
  {
    OrphanStoreSound(cfg, q.store, Pending(q), c, audience, expiresAt);
    OrphanChainsSound(q.store, Pending(q), q.chains, c, audience, expiresAt);
    if RaceOfOneIdentity(q) {
      OrphanOneIdentity(q.store, Pending(q), c, audience, expiresAt);
    }
  }
}
