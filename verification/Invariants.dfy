/** What every reachable store satisfies, and why each step keeps it. */
module Invariants {
  import opened Options
  import opened Settings
  import opened Tables
  import opened Sessions
  import opened SignIn
  import opened Accounts
  import opened Machine

  /** Every identifier and secret in use was drawn from the supply. */
  ghost predicate Drawn(s: Store) {
    && (forall x | x in s.credentials :: x < s.next)
    && (forall x | x in s.challenges :: x < s.next)
    && (forall x | x in s.sessions ::
          x < s.next && (s.sessions[x].family.Some? ==> s.sessions[x].family.value < s.next))
    && (forall x | x in s.tokens :: x < s.next && s.tokens[x].family < s.next)
    && (forall x | x in s.resets :: x < s.next)
    && (forall x | x in s.states :: x < s.next)
  }

  /** Foreign keys resolve. */
  ghost predicate Owned(s: Store) {
    && (forall x | x in s.challenges :: s.challenges[x].credential in s.credentials)
    && (forall x | x in s.sessions :: s.sessions[x].credential in s.credentials)
    && (forall x | x in s.tokens :: s.tokens[x].credential in s.credentials)
    && (forall x | x in s.resets :: s.resets[x].credential in s.credentials)
  }

  ghost predicate SameFamily(tokens: TokenTable, a: Secret, b: Secret) {
    a in tokens && b in tokens && tokens[a].family == tokens[b].family
  }

  /** The tokens of one family share holder and audience, and are revoked together. */
  ghost predicate FamiliesAgree(tokens: TokenTable) {
    forall a, b | SameFamily(tokens, a, b) ::
      && tokens[a].credential == tokens[b].credential
      && tokens[a].audience == tokens[b].audience
      && tokens[a].revoked == tokens[b].revoked
  }

  ghost predicate TiedTo(s: Store, sid: SessionId, raw: Secret) {
    sid in s.sessions && raw in s.tokens && s.sessions[sid].family == Some(s.tokens[raw].family)
  }

  /** A session and its tokens share holder and audience; an ended session has no usable token. */
  ghost predicate SessionsAgree(s: Store) {
    forall sid, raw | TiedTo(s, sid, raw) ::
      && s.sessions[sid].credential == s.tokens[raw].credential
      && s.sessions[sid].audience == s.tokens[raw].audience
      && (s.sessions[sid].revoked ==> s.tokens[raw].revoked)
  }

  /** No two sessions share a family. */
  ghost predicate OneSessionPerFamily(sessions: SessionTable) {
    forall a, b | a in sessions && b in sessions
                  && sessions[a].family.Some? && sessions[a].family == sessions[b].family :: a == b
  }

  ghost predicate IsDisabled(s: Store, c: CredentialId) {
    c in s.credentials && s.credentials[c].disabled
  }

  /** A disabled credential holds nothing that works. */
  ghost predicate DisabledHoldNothing(s: Store) {
    && (forall sid | sid in s.sessions && IsDisabled(s, s.sessions[sid].credential) :: s.sessions[sid].revoked)
    && (forall raw | raw in s.tokens && IsDisabled(s, s.tokens[raw].credential) :: s.tokens[raw].revoked)
  }

  /** Stored audiences come from the allow-list. */
  ghost predicate Audiences(cfg: Settings, s: Store) {
    && (forall x | x in s.tokens :: cfg.ResolveAudience(s.tokens[x].audience) == s.tokens[x].audience)
    && (forall x | x in s.challenges :: cfg.ResolveAudience(s.challenges[x].audience) == s.challenges[x].audience)
  }

  ghost predicate Rooted(cfg: Settings, s: Store) {
    Drawn(s) && Owned(s) && Audiences(cfg, s)
  }

  ghost predicate Agreeing(s: Store) {
    FamiliesAgree(s.tokens) && SessionsAgree(s) && OneSessionPerFamily(s.sessions) && DisabledHoldNothing(s)
  }

  ghost predicate Linked(cfg: Settings, s: Store) {
    Rooted(cfg, s) && Agreeing(s)
  }

  // --- Revocation -----------------------------------------------------------

  /** From `a` to `b` some tokens were revoked and nothing else happened to the table. */
  ghost predicate TokensOnlyRevoked(a: TokenTable, b: TokenTable) {
    && a.Keys == b.Keys
    && (forall raw | raw in a ::
          && b[raw] == a[raw].(revoked := b[raw].revoked)
          && (a[raw].revoked ==> b[raw].revoked))
  }

  /** From `a` to `b` some live sessions ended and nothing else happened to the table. */
  ghost predicate SessionsOnlyEnded(a: SessionTable, b: SessionTable) {
    && a.Keys == b.Keys
    && (forall sid | sid in a ::
          b[sid] == a[sid] ||
          (!a[sid].revoked
           && b[sid] == a[sid].(revoked := true, reason := b[sid].reason, revokedAt := b[sid].revokedAt)))
  }

  ghost predicate OnlyRevokes(s: Store, t: Store) {
    TokensOnlyRevoked(s.tokens, t.tokens) && SessionsOnlyEnded(s.sessions, t.sessions)
  }

  ghost predicate RevokedTogether(tokens: TokenTable) {
    forall a, b | SameFamily(tokens, a, b) :: tokens[a].revoked == tokens[b].revoked
  }

  ghost predicate EndedWithTheirTokens(s: Store) {
    forall sid, raw | TiedTo(s, sid, raw) && s.sessions[sid].revoked :: s.tokens[raw].revoked
  }

  /** Any revocation that takes whole families, and the families of every session it ends,
      keeps the invariant. */
  lemma OnlyRevokesKeeps(cfg: Settings, s: Store, t: Store)
    requires Linked(cfg, s)
    requires OnlyRevokes(s, t) && t == s.(tokens := t.tokens, sessions := t.sessions)
    requires RevokedTogether(t.tokens) && EndedWithTheirTokens(t)
    ensures Linked(cfg, t)
  {
    forall sid, raw | TiedTo(t, sid, raw)
      ensures t.sessions[sid].credential == t.tokens[raw].credential
      ensures t.sessions[sid].audience == t.tokens[raw].audience
      ensures t.sessions[sid].revoked ==> t.tokens[raw].revoked
    {
      assert TiedTo(s, sid, raw);
    }
    forall a, b | SameFamily(t.tokens, a, b)
      ensures t.tokens[a].credential == t.tokens[b].credential
      ensures t.tokens[a].audience == t.tokens[b].audience
      ensures t.tokens[a].revoked == t.tokens[b].revoked
    {
      assert SameFamily(s.tokens, a, b);
    }
  }

  lemma RevokeFamilyTakesFamilies(tokens: TokenTable, f: FamilyId)
    requires FamiliesAgree(tokens)
    ensures TokensOnlyRevoked(tokens, RevokeFamily(tokens, f))
    ensures RevokedTogether(RevokeFamily(tokens, f))
  {
    forall a, b | SameFamily(RevokeFamily(tokens, f), a, b)
      ensures RevokeFamily(tokens, f)[a].revoked == RevokeFamily(tokens, f)[b].revoked
    {
      assert SameFamily(tokens, a, b);
    }
  }

  lemma RevokeFamilyKeeps(cfg: Settings, s: Store, f: FamilyId)
    requires Linked(cfg, s)
    ensures Linked(cfg, s.(tokens := RevokeFamily(s.tokens, f)))
  {
    var t := s.(tokens := RevokeFamily(s.tokens, f));
    RevokeFamilyTakesFamilies(s.tokens, f);
    forall sid, raw | TiedTo(t, sid, raw) && t.sessions[sid].revoked ensures t.tokens[raw].revoked {
      assert TiedTo(s, sid, raw);
    }
    OnlyRevokesKeeps(cfg, s, t);
  }

  lemma RevokeTokensKeeps(cfg: Settings, s: Store, c: CredentialId)
    requires Linked(cfg, s)
    ensures OnlyRevokes(s, s.(tokens := RevokeTokensOf(s.tokens, c)))
    ensures Linked(cfg, s.(tokens := RevokeTokensOf(s.tokens, c)))
  {
    var t := s.(tokens := RevokeTokensOf(s.tokens, c));
    forall a, b | SameFamily(t.tokens, a, b) ensures t.tokens[a].revoked == t.tokens[b].revoked {
      assert SameFamily(s.tokens, a, b);
    }
    forall sid, raw | TiedTo(t, sid, raw) && t.sessions[sid].revoked ensures t.tokens[raw].revoked {
      assert TiedTo(s, sid, raw);
    }
    OnlyRevokesKeeps(cfg, s, t);
  }

  lemma RevokeSessionsKeeps(cfg: Settings, s: Store, c: CredentialId, reason: EndedBy)
    requires Linked(cfg, s)
    ensures OnlyRevokes(s, RevokeSessions(s, c, reason))
    ensures Linked(cfg, RevokeSessions(s, c, reason))
  {
    var t := RevokeSessions(s, c, reason);
    forall a, b | SameFamily(t.tokens, a, b) ensures t.tokens[a].revoked == t.tokens[b].revoked {
      assert SameFamily(s.tokens, a, b);
    }
    forall sid, raw | TiedTo(t, sid, raw) && t.sessions[sid].revoked ensures t.tokens[raw].revoked {
      assert TiedTo(s, sid, raw);
      if !s.sessions[sid].revoked {
        assert BacksLiveSession(s.sessions, c, s.tokens[raw].family);
      }
    }
    OnlyRevokesKeeps(cfg, s, t);
  }

  lemma OnlyRevokesCompose(s: Store, t: Store, u: Store)
    requires OnlyRevokes(s, t) && OnlyRevokes(t, u)
    ensures OnlyRevokes(s, u)
  {
    assert forall raw | raw in s.tokens :: raw in t.tokens && raw in u.tokens;
    assert forall sid | sid in s.sessions :: sid in t.sessions && sid in u.sessions;
  }

  lemma RevokeAllOnlyRevokes(s: Store, c: CredentialId, reason: EndedBy)
    ensures OnlyRevokes(s, RevokeAll(s, c, reason))
  {
    var t := s.(tokens := RevokeTokensOf(s.tokens, c));
    assert OnlyRevokes(s, t);
    assert OnlyRevokes(t, RevokeSessions(t, c, reason));
    OnlyRevokesCompose(s, t, RevokeSessions(t, c, reason));
  }

  lemma RevokeAllKeeps(cfg: Settings, s: Store, c: CredentialId, reason: EndedBy)
    requires Linked(cfg, s)
    ensures Linked(cfg, RevokeAll(s, c, reason))
  {
    var t := s.(tokens := RevokeTokensOf(s.tokens, c));
    RevokeTokensKeeps(cfg, s, c);
    RevokeSessionsKeeps(cfg, t, c, reason);
  }

  lemma SessionOfFamilyFinds(sessions: SessionTable, f: FamilyId, sid: SessionId)
    requires OneSessionPerFamily(sessions)
    requires sid in sessions && sessions[sid].family == Some(f)
    ensures SessionOfFamily(sessions, f) == Some(sid)
  {
  }

  lemma LogoutKeeps(cfg: Settings, s: Store, raw: Secret)
    requires Linked(cfg, s)
    ensures OnlyRevokes(s, Logout(s, raw).0)
    ensures Linked(cfg, Logout(s, raw).0)
  {
    if raw in s.tokens {
      var f := s.tokens[raw].family;
      var t := Logout(s, raw).0;
      RevokeFamilyTakesFamilies(s.tokens, f);
      forall sid, r | TiedTo(t, sid, r) && t.sessions[sid].revoked ensures t.tokens[r].revoked {
        assert TiedTo(s, sid, r);
      }
      OnlyRevokesKeeps(cfg, s, t);
    }
  }

  // --- Issuing --------------------------------------------------------------

  ghost predicate Enabled(s: Store, c: CredentialId) {
    c in s.credentials && !s.credentials[c].disabled
  }

  lemma AddSessionKeeps(cfg: Settings, s: Store, c: CredentialId, audience: string)
    requires Linked(cfg, s) && Enabled(s, c)
    ensures var (t, sid) := AddSession(s, c, audience);
      Linked(cfg, t) && Enabled(t, c) && OpenSession(t, c, audience, None, sid)
  {
    var t := AddSession(s, c, audience).0;
    forall sid, raw | TiedTo(t, sid, raw)
      ensures t.sessions[sid].credential == t.tokens[raw].credential
      ensures t.sessions[sid].audience == t.tokens[raw].audience
      ensures t.sessions[sid].revoked ==> t.tokens[raw].revoked
    {
      assert TiedTo(s, sid, raw);
    }
  }

  lemma StartSessionKeeps(cfg: Settings, s: Store, c: CredentialId, audience: string, supersede: bool)
    requires Linked(cfg, s) && Enabled(s, c)
    ensures var (t, sid) := StartSession(cfg, s, c, audience, supersede);
      Linked(cfg, t) && Enabled(t, c) && OpenSession(t, c, audience, None, sid)
  {
    if supersede && cfg.singleSession {
      RevokeSessionsKeeps(cfg, s, c, Superseded);
      AddSessionKeeps(cfg, RevokeSessions(s, c, Superseded), c, audience);
    } else {
      AddSessionKeeps(cfg, s, c, audience);
    }
  }

  /** Family `f` belongs to `c` and `audience`, is not revoked, and no session but `sid` has it. */
  ghost predicate Joinable(s: Store, c: CredentialId, audience: string, f: FamilyId, sid: SessionId) {
    && f < s.next
    && (forall raw | raw in s.tokens && s.tokens[raw].family == f ::
          s.tokens[raw].credential == c && s.tokens[raw].audience == audience && !s.tokens[raw].revoked)
    && (forall x | x in s.sessions && s.sessions[x].family == Some(f) :: x == sid)
  }

  ghost predicate OpenSession(s: Store, c: CredentialId, audience: string, family: Option<FamilyId>, sid: SessionId) {
    && sid in s.sessions
    && s.sessions[sid].credential == c
    && s.sessions[sid].audience == audience
    && !s.sessions[sid].revoked
    && (s.sessions[sid].family.None? || s.sessions[sid].family == family)
  }

  lemma AddTokenKeeps(cfg: Settings, s: Store, c: CredentialId, audience: string,
                      family: Option<FamilyId>, sid: SessionId)
    requires Linked(cfg, s) && Enabled(s, c)
    requires cfg.ResolveAudience(audience) == audience
    requires OpenSession(s, c, audience, family, sid)
    requires family.Some? ==> Joinable(s, c, audience, family.value, sid)
    ensures Linked(cfg, AddToken(cfg, s, c, audience, family, sid).0)
  {
    var t := AddToken(cfg, s, c, audience, family, sid).0;
    var f := if family.Some? then family.value else s.next + 1;
    assert t.sessions[sid].family == Some(f);
    forall a, b | SameFamily(t.tokens, a, b)
      ensures t.tokens[a].credential == t.tokens[b].credential
      ensures t.tokens[a].audience == t.tokens[b].audience
      ensures t.tokens[a].revoked == t.tokens[b].revoked
    {
      if a != s.next && b != s.next {
        assert SameFamily(s.tokens, a, b);
      }
    }
    forall x, raw | TiedTo(t, x, raw)
      ensures t.sessions[x].credential == t.tokens[raw].credential
      ensures t.sessions[x].audience == t.tokens[raw].audience
      ensures t.sessions[x].revoked ==> t.tokens[raw].revoked
    {
      if raw != s.next && x != sid {
        assert TiedTo(s, x, raw);
      }
    }
  }

  lemma SignInKeeps(cfg: Settings, s: Store, c: CredentialId, requested: string)
    requires Linked(cfg, s) && Enabled(s, c)
    ensures Linked(cfg, IssueTokens(cfg, s, c, requested, None, None, true).0)
  {
    var audience := cfg.ResolveAudience(requested);
    StartSessionKeeps(cfg, s, c, audience, true);
    var (s1, sid) := StartSession(cfg, s, c, audience, true);
    AddTokenKeeps(cfg, s1, c, audience, None, sid);
  }

  /** A token won in a reachable store can be succeeded: its family is whole and open. */
  lemma ClaimedKeeps(cfg: Settings, s: Store, raw: Secret)
    requires Linked(cfg, s) && ClaimToken(s, raw).1.Claimed?
    ensures ReadyToFinish(cfg, ClaimToken(s, raw).0, ClaimToken(s, raw).1)
  {
    var (t, claim) := ClaimToken(s, raw);
    forall a, b | SameFamily(t.tokens, a, b)
      ensures t.tokens[a].credential == t.tokens[b].credential
      ensures t.tokens[a].audience == t.tokens[b].audience
      ensures t.tokens[a].revoked == t.tokens[b].revoked
    {
      assert SameFamily(s.tokens, a, b);
    }
    forall x, r | TiedTo(t, x, r)
      ensures t.sessions[x].credential == t.tokens[r].credential
      ensures t.sessions[x].audience == t.tokens[r].audience
      ensures t.sessions[x].revoked ==> t.tokens[r].revoked
    {
      assert TiedTo(s, x, r);
    }
    forall r | r in t.tokens && t.tokens[r].family == claim.family
      ensures t.tokens[r].credential == claim.credential && t.tokens[r].audience == claim.audience
      ensures !t.tokens[r].revoked
    {
      assert SameFamily(s.tokens, r, raw);
    }
    if claim.session.Some? {
      assert TiedTo(s, claim.session.value, raw);
    }
  }

  lemma RefusedClaimKeeps(cfg: Settings, s: Store, raw: Secret)
    requires Linked(cfg, s) && ClaimToken(s, raw).1.NotClaimed?
    ensures Linked(cfg, ClaimToken(s, raw).0)
  {
    if raw in s.tokens {
      RevokeFamilyKeeps(cfg, s, s.tokens[raw].family);
    }
  }

  /** What the second transaction needs of the store the first one left. */
  ghost predicate ReadyToFinish(cfg: Settings, s: Store, claim: Claim) {
    && claim.Claimed?
    && Linked(cfg, s)
    && Enabled(s, claim.credential)
    && cfg.ResolveAudience(claim.audience) == claim.audience
    && (claim.session.Some? ==>
          && OpenSession(s, claim.credential, claim.audience, Some(claim.family), claim.session.value)
          && Joinable(s, claim.credential, claim.audience, claim.family, claim.session.value))
    && (claim.session.None? ==>
          forall sid :: Joinable(s, claim.credential, claim.audience, claim.family, sid))
  }

  lemma FinishKeeps(cfg: Settings, s: Store, claim: Claim)
    requires ReadyToFinish(cfg, s, claim)
    ensures Linked(cfg, FinishRotation(cfg, s, claim).0)
  {
    var c, audience, f := claim.credential, claim.audience, claim.family;
    if claim.session.Some? {
      AddTokenKeeps(cfg, s, c, audience, Some(f), claim.session.value);
    } else {
      AddSessionKeeps(cfg, s, c, audience);
      var (t, sid) := AddSession(s, c, audience);
      assert Joinable(s, c, audience, f, sid);
      AddTokenKeeps(cfg, t, c, audience, Some(f), sid);
    }
  }

  lemma RotateKeeps(cfg: Settings, s: Store, raw: Secret)
    requires Linked(cfg, s)
    ensures Linked(cfg, RotateRefresh(cfg, s, raw).0)
  {
    var (s1, claim) := ClaimToken(s, raw);
    if claim.NotClaimed? {
      RefusedClaimKeeps(cfg, s, raw);
    } else {
      ClaimedKeeps(cfg, s, raw);
      FinishKeeps(cfg, s1, claim);
    }
  }

  // --- Every step -----------------------------------------------------------

  /** Sessions and tokens are untouched, no credential is lost and none changes its standing. */
  ghost predicate SameHoldings(s: Store, t: Store) {
    && s.sessions == t.sessions && s.tokens == t.tokens
    && s.credentials.Keys <= t.credentials.Keys
    && (forall c | c in s.credentials :: s.credentials[c].disabled == t.credentials[c].disabled)
  }

  lemma SameHoldingsKeep(cfg: Settings, s: Store, t: Store)
    requires Linked(cfg, s) && SameHoldings(s, t) && Rooted(cfg, t)
    ensures Linked(cfg, t)
  {
    forall sid, raw | TiedTo(t, sid, raw)
      ensures t.sessions[sid].credential == t.tokens[raw].credential
      ensures t.sessions[sid].audience == t.tokens[raw].audience
      ensures t.sessions[sid].revoked ==> t.tokens[raw].revoked
    {
      assert TiedTo(s, sid, raw);
    }
  }

  lemma CredentialUpdateRoots(cfg: Settings, s: Store, id: CredentialId, c: Credential)
    requires Rooted(cfg, s) && id in s.credentials && c.disabled == s.credentials[id].disabled
    ensures var t := s.(credentials := s.credentials[id := c]);
      Rooted(cfg, t) && SameHoldings(s, t)
  {
  }

  lemma AuthenticateRoots(cfg: Settings, s: Store, id: CredentialId, password: Secret)
    requires Rooted(cfg, s)
    ensures var (t, o) := Authenticate(cfg, s, id, password);
      Rooted(cfg, t) && SameHoldings(s, t) && (!o.Refused? ==> id in t.credentials)
  {
    if id in s.credentials {
      var c := s.credentials[id];
      CredentialUpdateRoots(cfg, s, id, CountFailure(cfg, c, s.now));
      CredentialUpdateRoots(cfg, s, id, ClearFailures(c));
    }
  }

  lemma StartChallengeRoots(cfg: Settings, s: Store, id: CredentialId, audience: string, code: Secret, delivered: bool)
    requires Rooted(cfg, s) && id in s.credentials
    ensures var t := StartChallenge(cfg, s, id, audience, code, delivered).0;
      Rooted(cfg, t) && SameHoldings(s, t)
  {
  }

  lemma LoginRoots(cfg: Settings, s: Store, id: CredentialId, password: Secret, audience: string,
                   code: Secret, delivered: bool)
    requires Rooted(cfg, s)
    ensures var t := Login(cfg, s, id, password, audience, code, delivered).0;
      Rooted(cfg, t) && SameHoldings(s, t)
  {
    AuthenticateRoots(cfg, s, id, password);
    var (s1, o) := Authenticate(cfg, s, id, password);
    if !o.Refused? {
      StartChallengeRoots(cfg, s1, id, audience, code, delivered);
    }
  }

  lemma ChallengeUpdateRoots(cfg: Settings, s: Store, ch: ChallengeId, x: Challenge)
    requires Rooted(cfg, s) && ch in s.challenges
    requires x.credential == s.challenges[ch].credential && x.audience == s.challenges[ch].audience
    ensures Rooted(cfg, s.(challenges := s.challenges[ch := x]))
  {
  }

  lemma ResendRoots(cfg: Settings, s: Store, ch: ChallengeId, code: Secret, delivered: bool)
    requires Rooted(cfg, s)
    ensures var t := ResendChallenge(cfg, s, ch, code, delivered).0;
      Rooted(cfg, t) && SameHoldings(s, t)
  {
    var t := ResendChallenge(cfg, s, ch, code, delivered).0;
    if t != s {
      assert t == s.(challenges := s.challenges[ch := t.challenges[ch]]);
      ChallengeUpdateRoots(cfg, s, ch, t.challenges[ch]);
    }
  }

  lemma AcceptedRoots(cfg: Settings, s: Store, ch: ChallengeId)
    requires Rooted(cfg, s) && ch in s.challenges
    ensures Rooted(cfg, Accepted(s, ch)) && SameHoldings(s, Accepted(s, ch))
  {
  }

  lemma FailedVerifyRoots(cfg: Settings, s: Store, ch: ChallengeId, code: Secret)
    requires Rooted(cfg, s) && !VerifyChallenge(cfg, s, ch, code).1.Granted?
    ensures var t := VerifyChallenge(cfg, s, ch, code).0;
      Rooted(cfg, t) && SameHoldings(s, t)
  {
    var t := VerifyChallenge(cfg, s, ch, code).0;
    if ch in s.challenges && t != s {
      ChallengeUpdateRoots(cfg, s, ch, t.challenges[ch]);
      var id := s.challenges[ch].credential;
      CredentialUpdateRoots(cfg, s.(challenges := t.challenges), id, CountFailure(cfg, s.credentials[id], s.now));
    }
  }

  lemma AddCredentialRoots(cfg: Settings, s: Store, password: Option<Secret>)
    requires Rooted(cfg, s)
    ensures var (t, x) := AddCredential(s, password);
      Rooted(cfg, t) && SameHoldings(s, t) && x in t.credentials
  {
    assert forall c | c in s.credentials :: c in AddCredential(s, password).0.credentials && c != s.next;
  }

  lemma UpsertRoots(cfg: Settings, s: Store, id: CredentialId)
    requires Rooted(cfg, s)
    ensures var (t, x) := UpsertGoogle(s, id);
      Rooted(cfg, t) && SameHoldings(s, t) && x in t.credentials
  {
    AddCredentialRoots(cfg, s, None);
  }

  lemma ConsumeRoots(cfg: Settings, s: Store, state: Option<Secret>)
    requires Rooted(cfg, s)
    ensures Rooted(cfg, ConsumeState(s, state).0) && SameHoldings(s, ConsumeState(s, state).0)
  {
  }

  lemma GoogleCallbackRoots(cfg: Settings, s: Store, state: Option<Secret>, answer: GoogleAnswer,
                            code: Secret, delivered: bool)
    requires Rooted(cfg, s)
    ensures var t := GoogleCallback(cfg, s, state, answer, code, delivered).0;
      Rooted(cfg, t) && SameHoldings(s, t)
  {
    var (s1, o) := ConsumeState(s, state);
    ConsumeRoots(cfg, s, state);
    if !o.Refused? && answer.Identity? {
      var (s2, id) := UpsertGoogle(s1, answer.credential);
      UpsertRoots(cfg, s1, answer.credential);
      StartChallengeRoots(cfg, s2, id, cfg.defaultAudience, code, delivered);
    }
  }

  /** The requests that touch neither sessions nor tokens, whatever they answer. */
  predicate LeavesHoldings(r: Request) {
    r.DoSignUp? || r.DoLogin? || r.DoResend? || r.DoRequestReset? || r.DoGoogleStart? || r.DoGoogleCallback? ||
    r.DoPurgeStates?
  }

  lemma SignUpRoots(cfg: Settings, s: Store, password: Secret)
    requires Rooted(cfg, s)
    ensures Rooted(cfg, SignUp(s, password).0) && SameHoldings(s, SignUp(s, password).0)
  {
    AddCredentialRoots(cfg, s, Some(password));
  }

  lemma RequestResetRoots(cfg: Settings, s: Store, id: CredentialId)
    requires Rooted(cfg, s)
    ensures Rooted(cfg, RequestReset(cfg, s, id).0) && SameHoldings(s, RequestReset(cfg, s, id).0)
  {
  }

  lemma IssueStateRoots(cfg: Settings, s: Store)
    requires Rooted(cfg, s)
    ensures Rooted(cfg, IssueState(cfg, s).0) && SameHoldings(s, IssueState(cfg, s).0)
  {
  }

  lemma PurgeStatesRoots(cfg: Settings, s: Store)
    requires Rooted(cfg, s)
    ensures Rooted(cfg, PurgeStates(s).0) && SameHoldings(s, PurgeStates(s).0)
  {
  }

  lemma LeavesHoldingsRoots(cfg: Settings, s: Store, r: Request)
    requires Rooted(cfg, s) && LeavesHoldings(r)
    ensures Rooted(cfg, Handle(cfg, s, r).0) && SameHoldings(s, Handle(cfg, s, r).0)
  {
    match r {
      case DoSignUp(password) => SignUpRoots(cfg, s, password);
      case DoRequestReset(id) => RequestResetRoots(cfg, s, id);
      case DoGoogleStart => IssueStateRoots(cfg, s);
      case DoPurgeStates => PurgeStatesRoots(cfg, s);
      case DoLogin(id, password, audience, code, delivered) =>
        LoginRoots(cfg, s, id, password, audience, code, delivered);
      case DoResend(ch, code, delivered) => ResendRoots(cfg, s, ch, code, delivered);
      case DoGoogleCallback(state, answer, code, delivered) =>
        GoogleCallbackRoots(cfg, s, state, answer, code, delivered);
    }
  }

  /** The code is right and nothing stands in the way: the one way a challenge is answered. */
  ghost predicate Answers(s: Store, ch: ChallengeId, code: Secret) {
    && ch in s.challenges
    && !s.challenges[ch].consumed
    && s.now <= s.challenges[ch].expiresAt
    && s.challenges[ch].credential in s.credentials
    && !s.credentials[s.challenges[ch].credential].disabled
    && !Locked(s.credentials[s.challenges[ch].credential], s.now)
    && s.challenges[ch].code == code
  }

  lemma VerifyAnswers(cfg: Settings, s: Store, ch: ChallengeId, code: Secret)
    ensures VerifyChallenge(cfg, s, ch, code).1.Granted? <==> Answers(s, ch, code)
    ensures Answers(s, ch, code) ==>
      VerifyChallenge(cfg, s, ch, code) ==
      IssueTokens(cfg, Accepted(s, ch), s.challenges[ch].credential, s.challenges[ch].audience, None, None, true)
  {
  }

  lemma AnswerKeeps(cfg: Settings, s: Store, ch: ChallengeId, code: Secret)
    requires Linked(cfg, s) && Answers(s, ch, code)
    ensures var x := s.challenges[ch];
      Linked(cfg, IssueTokens(cfg, Accepted(s, ch), x.credential, x.audience, None, None, true).0)
  {
    AcceptedRoots(cfg, s, ch);
    SameHoldingsKeep(cfg, s, Accepted(s, ch));
    SignInKeeps(cfg, Accepted(s, ch), s.challenges[ch].credential, s.challenges[ch].audience);
  }

  lemma VerifyKeeps(cfg: Settings, s: Store, ch: ChallengeId, code: Secret)
    requires Linked(cfg, s)
    ensures Linked(cfg, VerifyChallenge(cfg, s, ch, code).0)
  {
    VerifyAnswers(cfg, s, ch, code);
    if Answers(s, ch, code) {
      AnswerKeeps(cfg, s, ch, code);
    } else {
      FailedVerifyRoots(cfg, s, ch, code);
      SameHoldingsKeep(cfg, s, VerifyChallenge(cfg, s, ch, code).0);
    }
  }

  lemma RepasswordedRoots(cfg: Settings, s: Store, raw: Secret, password: Secret)
    requires Rooted(cfg, s) && ResetUsable(s, raw)
    ensures Rooted(cfg, Repassworded(s, raw, password)) && SameHoldings(s, Repassworded(s, raw, password))
  {
  }

  lemma ConfirmResetKeeps(cfg: Settings, s: Store, raw: Secret, password: Secret)
    requires Linked(cfg, s)
    ensures Linked(cfg, ConfirmReset(s, raw, password).0)
  {
    if ResetUsable(s, raw) {
      var s1 := Repassworded(s, raw, password);
      RepasswordedRoots(cfg, s, raw, password);
      SameHoldingsKeep(cfg, s, s1);
      RevokeAllKeeps(cfg, s1, s.resets[raw].credential, ByPasswordReset);
    }
  }

  /** Everything `id` holds is dead once all of it is revoked. */
  lemma RevokeAllLeavesNothing(s: Store, c: CredentialId, reason: EndedBy)
    ensures var t := RevokeAll(s, c, reason);
      && (forall raw | raw in t.tokens && t.tokens[raw].credential == c :: t.tokens[raw].revoked)
      && (forall sid | sid in t.sessions && t.sessions[sid].credential == c :: t.sessions[sid].revoked)
  {
  }

  lemma DisableKeeps(cfg: Settings, s: Store, id: CredentialId)
    requires Linked(cfg, s)
    ensures Linked(cfg, Disable(s, id).0)
  {
    if id in s.credentials {
      var u := RevokeAll(s, id, ByDisabling);
      var t := Disable(s, id).0;
      assert t == u.(credentials := t.credentials);
      RevokeAllKeeps(cfg, s, id, ByDisabling);
      RevokeAllLeavesNothing(s, id, ByDisabling);
      forall sid, raw | TiedTo(t, sid, raw)
        ensures t.sessions[sid].credential == t.tokens[raw].credential
        ensures t.sessions[sid].audience == t.tokens[raw].audience
        ensures t.sessions[sid].revoked ==> t.tokens[raw].revoked
      {
        assert TiedTo(u, sid, raw);
      }
    }
  }

  lemma HandleKeeps(cfg: Settings, s: Store, r: Request)
    requires Linked(cfg, s)
    ensures Linked(cfg, Handle(cfg, s, r).0)
  {
    match r {
      case DoVerify(ch, code) => VerifyKeeps(cfg, s, ch, code);
      case DoRefresh(raw) => RotateKeeps(cfg, s, raw);
      case DoLogout(raw) => LogoutKeeps(cfg, s, raw);
      case DoLogoutAll(raw) =>
        if raw in s.tokens {
          RevokeAllKeeps(cfg, s, s.tokens[raw].credential, LoggedOutEverywhere);
        }
      case DoConfirmReset(raw, password) => ConfirmResetKeeps(cfg, s, raw, password);
      case DoDisable(id) => DisableKeeps(cfg, s, id);
      case _ =>
        LeavesHoldingsRoots(cfg, s, r);
        SameHoldingsKeep(cfg, s, Handle(cfg, s, r).0);
    }
  }

  lemma TickKeeps(cfg: Settings, s: Store, elapsed: nat)
    requires Linked(cfg, s)
    ensures Linked(cfg, Tick(s, elapsed))
  {
    SameHoldingsKeep(cfg, s, Tick(s, elapsed));
  }

  lemma StepKeeps(cfg: Settings, s: Store, e: Event)
    requires Linked(cfg, s)
    ensures Linked(cfg, Step(cfg, s, e).0)
  {
    TickKeeps(cfg, s, e.elapsed);
    HandleKeeps(cfg, Tick(s, e.elapsed), e.request);
  }

  lemma {:induction false} RunKeeps(cfg: Settings, s: Store, es: seq<Event>)
    requires Linked(cfg, s)
    ensures Linked(cfg, Run(cfg, s, es))
    decreases |es|
  {
    if es != [] {
      StepKeeps(cfg, s, es[0]);
      RunKeeps(cfg, Step(cfg, s, es[0]).0, es[1..]);
    }
  }

  /** A new deployment satisfies the invariant. */
  lemma EmptyIsLinked(cfg: Settings)
    ensures Linked(cfg, EMPTY)
  {
  }
}
