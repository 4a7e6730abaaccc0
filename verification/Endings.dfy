/** What has ended stays ended: dead families, ended sessions, disabled credentials. */
module Endings {
  import opened Options
  import opened Settings
  import opened Tables
  import opened Sessions
  import opened SignIn
  import opened Accounts
  import opened Machine
  import opened Invariants
  import opened Shapes

  /** Every token of the family is revoked. */
  ghost predicate Dead(s: Store, f: FamilyId) {
    forall raw | raw in s.tokens && s.tokens[raw].family == f :: s.tokens[raw].revoked
  }

  /** From `s` to `t` the family gained no token, lost none, and every one of them is revoked. */
  ghost predicate ClosedOver(s: Store, t: Store, f: FamilyId) {
    && (forall raw | raw in s.tokens && s.tokens[raw].family == f :: raw in t.tokens && t.tokens[raw].family == f)
    && (forall raw | raw in t.tokens && t.tokens[raw].family == f ::
          raw in s.tokens && s.tokens[raw].family == f && t.tokens[raw].revoked)
  }

  lemma SignInKeepsDead(cfg: Settings, s: Store, ch: ChallengeId, f: FamilyId)
    requires ch in s.challenges && s.challenges[ch].credential in s.credentials
    requires Drawn(s) && f < s.next && Dead(s, f)
    ensures ClosedOver(s, SignedIn(cfg, s, ch), f)
  {
    var base := Cleared(cfg, s, ch).tokens;
    ClearedOnlyRevokes(cfg, s, ch);
    assert forall raw | raw in s.tokens :: raw in base && base[raw].family == s.tokens[raw].family;
  }

  lemma RotationKeepsDead(cfg: Settings, s: Store, raw: Secret, f: FamilyId)
    requires Drawn(s) && Wins(s, raw) && f < s.next && Dead(s, f)
    ensures ClosedOver(s, Finished(cfg, ClaimToken(s, raw).0, ClaimToken(s, raw).1), f)
  {
    assert s.tokens[raw].family != f;
  }

  lemma RevokingKeepsDead(s: Store, t: Store, f: FamilyId)
    requires OnlyRevokes(s, t) && Dead(s, f)
    ensures ClosedOver(s, t, f)
  {
  }

  lemma DeadShape(cfg: Settings, s: Store, r: Request, t: Store, o: Outcome, f: FamilyId)
    requires Rooted(cfg, s) && Shaped(cfg, s, r, t, o) && f < s.next && Dead(s, f)
    ensures ClosedOver(s, t, f)
  {
    if SignsIn(s, r) {
      SignInKeepsDead(cfg, s, r.challenge, f);
    } else if Rotates(s, r) {
      RotationKeepsDead(cfg, s, r.raw, f);
    } else {
      RevokingKeepsDead(s, t, f);
    }
  }

  lemma DeadStep(cfg: Settings, s: Store, r: Request, f: FamilyId)
    requires Rooted(cfg, s) && f < s.next && Dead(s, f)
    ensures ClosedOver(s, Handle(cfg, s, r).0, f) && s.next <= Handle(cfg, s, r).0.next
  {
    HandleShaped(cfg, s, r);
    DeadShape(cfg, s, r, Handle(cfg, s, r).0, Handle(cfg, s, r).1, f);
  }

  /** A dead family never comes back, and nobody can rotate any of its tokens. */
  lemma {:induction false} DeadFamilyStaysDead(cfg: Settings, s: Store, es: seq<Event>, f: FamilyId)
    requires Linked(cfg, s) && f < s.next && Dead(s, f)
    ensures ClosedOver(s, Run(cfg, s, es), f)
    ensures forall raw | raw in s.tokens && s.tokens[raw].family == f ::
      RotateRefresh(cfg, Run(cfg, s, es), raw).1 == Refused(InvalidRefresh(ReuseDetected))
    decreases |es|
  {
    if es != [] {
      TickKeeps(cfg, s, es[0].elapsed);
      DeadStep(cfg, Tick(s, es[0].elapsed), es[0].request, f);
      StepKeeps(cfg, s, es[0]);
      DeadFamilyStaysDead(cfg, Step(cfg, s, es[0]).0, es[1..], f);
    }
  }

  /** An ended session's row is frozen. */
  lemma EndedStep(cfg: Settings, s: Store, r: Request, sid: SessionId)
    requires Rooted(cfg, s) && sid in s.sessions && s.sessions[sid].revoked
    ensures sid in Handle(cfg, s, r).0.sessions && Handle(cfg, s, r).0.sessions[sid] == s.sessions[sid]
  {
    if SignsIn(s, r) {
      SignInShape(cfg, s, r.challenge, r.code);
    } else if Rotates(s, r) {
      RotateShape(cfg, s, r.raw);
    } else {
      OthersOnlyRevoke(cfg, s, r);
    }
  }

  lemma {:induction false} EndedRowStays(cfg: Settings, s: Store, es: seq<Event>, sid: SessionId)
    requires Linked(cfg, s) && sid in s.sessions && s.sessions[sid].revoked
    ensures sid in Run(cfg, s, es).sessions && Run(cfg, s, es).sessions[sid] == s.sessions[sid]
    decreases |es|
  {
    if es != [] {
      TickKeeps(cfg, s, es[0].elapsed);
      EndedStep(cfg, Tick(s, es[0].elapsed), es[0].request, sid);
      StepKeeps(cfg, s, es[0]);
      EndedRowStays(cfg, Step(cfg, s, es[0]).0, es[1..], sid);
    }
  }

  /** Once a session has ended it is never live again, its family never gains a token, and no
      token ever issued under it rotates. */
  lemma {:induction false} EndedSessionsStayEnded(cfg: Settings, s: Store, es: seq<Event>, sid: SessionId)
    requires Linked(cfg, s) && sid in s.sessions && s.sessions[sid].revoked
    ensures var t := Run(cfg, s, es);
      && sid in t.sessions && t.sessions[sid] == s.sessions[sid]
      && (s.sessions[sid].family.Some? ==>
            && ClosedOver(s, t, s.sessions[sid].family.value)
            && (forall raw | raw in t.tokens && Some(t.tokens[raw].family) == s.sessions[sid].family ::
                  RotateRefresh(cfg, t, raw).1 == Refused(InvalidRefresh(ReuseDetected))))
  {
    EndedRowStays(cfg, s, es, sid);
    if s.sessions[sid].family.Some? {
      var f := s.sessions[sid].family.value;
      forall raw | raw in s.tokens && s.tokens[raw].family == f ensures s.tokens[raw].revoked {
        assert TiedTo(s, sid, raw);
      }
      DeadFamilyStaysDead(cfg, s, es, f);
    }
  }

  /** The ways out: logging out ends the session behind the presented token. */
  lemma LogoutEnds(cfg: Settings, s: Store, raw: Secret, sid: SessionId)
    requires Linked(cfg, s) && TiedTo(s, sid, raw)
    ensures sid in Logout(s, raw).0.sessions && Logout(s, raw).0.sessions[sid].revoked
    ensures Dead(Logout(s, raw).0, s.tokens[raw].family)
  {
    SessionOfFamilyFinds(s.sessions, s.tokens[raw].family, sid);
  }

  /** Nothing of `c` is live. */
  ghost predicate HoldsNothing(s: Store, c: CredentialId) {
    && (forall raw | raw in s.tokens && s.tokens[raw].credential == c :: s.tokens[raw].revoked)
    && (forall sid | sid in s.sessions && s.sessions[sid].credential == c :: s.sessions[sid].revoked)
  }

  /** Logging out everywhere, resetting the password and disabling each end all of it. */
  lemma SweepingEndings(cfg: Settings, s: Store, raw: Secret, password: Secret, id: CredentialId)
    requires Linked(cfg, s)
    ensures raw in s.tokens ==> HoldsNothing(LogoutAll(s, raw).0, s.tokens[raw].credential)
    ensures ResetUsable(s, raw) ==> HoldsNothing(ConfirmReset(s, raw, password).0, s.resets[raw].credential)
    ensures id in s.credentials ==> HoldsNothing(Disable(s, id).0, id)
  {
    if raw in s.tokens {
      RevokeAllLeavesNothing(s, s.tokens[raw].credential, LoggedOutEverywhere);
    }
    if ResetUsable(s, raw) {
      RevokeAllLeavesNothing(Repassworded(s, raw, password), s.resets[raw].credential, ByPasswordReset);
    }
    if id in s.credentials {
      RevokeAllLeavesNothing(Deactivated(s, id), id, ByDisabling);
    }
  }

  /** Tokens go only to enabled credentials. */
  lemma GrantsNeedStanding(cfg: Settings, s: Store, r: Request)
    requires Rooted(cfg, s)
    ensures var o := Handle(cfg, s, r).1; o.Granted? ==> Enabled(s, o.access.sub)
  {
    if SignsIn(s, r) {
      SignInShape(cfg, s, r.challenge, r.code);
    } else if Rotates(s, r) {
      RotateShape(cfg, s, r.raw);
    } else {
      OthersOnlyRevoke(cfg, s, r);
    }
  }

  ghost predicate NoGrantTo(outcomes: seq<Outcome>, c: CredentialId) {
    forall i | 0 <= i < |outcomes| :: outcomes[i].Granted? ==> outcomes[i].access.sub != c
  }

  /** A disabled credential stays disabled, holds nothing that works, and no run mints for it. */
  lemma {:induction false} DisabledForGood(cfg: Settings, s: Store, es: seq<Event>, c: CredentialId)
    requires Linked(cfg, s) && IsDisabled(s, c)
    ensures IsDisabled(Run(cfg, s, es), c)
    ensures HoldsNothing(Run(cfg, s, es), c)
    ensures NoGrantTo(Outcomes(cfg, s, es), c)
    decreases |es|
  {
    if es != [] {
      TickKeeps(cfg, s, es[0].elapsed);
      var s1 := Tick(s, es[0].elapsed);
      StepKeeps(cfg, s, es[0]);
      HandleKeepsStanding(cfg, s1, es[0].request);
      GrantsNeedStanding(cfg, s1, es[0].request);
      DisabledForGood(cfg, Step(cfg, s, es[0]).0, es[1..], c);
    }
  }

  /** `disable_credential` is absorbing. */
  lemma {:induction false} DisableIsAbsorbing(cfg: Settings, s: Store, e: Event, es: seq<Event>, c: CredentialId)
    requires Linked(cfg, s) && c in s.credentials && e.request == DoDisable(c)
    ensures var t := Step(cfg, s, e).0;
      IsDisabled(Run(cfg, t, es), c) && HoldsNothing(Run(cfg, t, es), c) && NoGrantTo(Outcomes(cfg, t, es), c)
  {
    StepKeeps(cfg, s, e);
    assert IsDisabled(Step(cfg, s, e).0, c);
    DisabledForGood(cfg, Step(cfg, s, e).0, es, c);
  }

  // --- A session and its family -----------------------------------------------

  /** Session `sid` is live, tied to `f`, and `f` has a token that works. */
  ghost predicate BothLive(s: Store, sid: SessionId, f: FamilyId) {
    && sid in s.sessions && !s.sessions[sid].revoked && s.sessions[sid].family == Some(f)
    && !Dead(s, f)
  }

  /** The request presents a spent or revoked token of `f` (services.py:657). */
  ghost predicate Reuses(s: Store, r: Request, f: FamilyId) {
    && r.DoRefresh? && r.raw in s.tokens && s.tokens[r.raw].family == f
    && (s.tokens[r.raw].rotated || s.tokens[r.raw].revoked)
  }

  /** Session and family from `s` to `t`: the row stays tied, and the family died exactly when the
      session ended or `reused` says so. */
  ghost predicate Fate(t: Store, sid: SessionId, f: FamilyId, reused: bool) {
    && sid in t.sessions && t.sessions[sid].family == Some(f)
    && (Dead(t, f) <==> t.sessions[sid].revoked || reused)
  }

  lemma UntouchedFate(s: Store, t: Store, sid: SessionId, f: FamilyId)
    requires BothLive(s, sid, f) && s.sessions == t.sessions && s.tokens == t.tokens
    ensures Fate(t, sid, f, false)
  {
  }

  /** Revoking by family, whatever it does to sessions: what counts is whether `sid` is taken along. */
  lemma RevokedFate(s: Store, t: Store, sid: SessionId, f: FamilyId, killed: bool, reused: bool)
    requires Agreeing(s) && BothLive(s, sid, f) && OnlyRevokes(s, t)
    requires forall raw | raw in s.tokens && s.tokens[raw].family == f && !s.tokens[raw].revoked ::
      t.tokens[raw].revoked == killed
    requires killed == (t.sessions[sid].revoked || reused)
    ensures Fate(t, sid, f, reused)
  {
    var raw :| raw in s.tokens && s.tokens[raw].family == f && !s.tokens[raw].revoked;
    assert raw in t.tokens && t.tokens[raw].family == f;
  }

  lemma BackedByOwnSession(s: Store, sid: SessionId, f: FamilyId, c: CredentialId)
    requires OneSessionPerFamily(s.sessions) && BothLive(s, sid, f)
    ensures BacksLiveSession(s.sessions, c, f) <==> s.sessions[sid].credential == c
  {
    if s.sessions[sid].credential == c {
      assert LiveFor(s.sessions[sid], c);
    }
  }

  lemma SupersedingFate(s: Store, c: CredentialId, reason: EndedBy, sid: SessionId, f: FamilyId)
    requires Agreeing(s) && BothLive(s, sid, f)
    ensures Fate(RevokeSessions(s, c, reason), sid, f, false)
  {
    var t := RevokeSessions(s, c, reason);
    BackedByOwnSession(s, sid, f, c);
    RevokedFate(s, t, sid, f, s.sessions[sid].credential == c, false);
  }

  lemma SweepingFate(s: Store, c: CredentialId, reason: EndedBy, sid: SessionId, f: FamilyId)
    requires Agreeing(s) && BothLive(s, sid, f)
    ensures Fate(RevokeAll(s, c, reason), sid, f, false)
  {
    var t := RevokeAll(s, c, reason);
    BackedByOwnSession(s, sid, f, c);
    RevokeAllOnlyRevokes(s, c, reason);
    forall raw | raw in s.tokens && s.tokens[raw].family == f && !s.tokens[raw].revoked
      ensures t.tokens[raw].revoked == (s.sessions[sid].credential == c)
    {
      assert TiedTo(s, sid, raw);
    }
    RevokedFate(s, t, sid, f, s.sessions[sid].credential == c, false);
  }

  lemma ClearedFate(cfg: Settings, s: Store, ch: ChallengeId, sid: SessionId, f: FamilyId)
    requires Linked(cfg, s) && BothLive(s, sid, f) && ch in s.challenges
    ensures Fate(Cleared(cfg, s, ch), sid, f, false)
  {
    AcceptedRoots(cfg, s, ch);
    SameHoldingsKeep(cfg, s, Accepted(s, ch));
    if cfg.singleSession {
      SupersedingFate(Accepted(s, ch), s.challenges[ch].credential, Superseded, sid, f);
    } else {
      UntouchedFate(s, Accepted(s, ch), sid, f);
    }
  }

  /** A session and a token of another family change nothing for this one. */
  lemma OpeningFate(cfg: Settings, s: Store, ch: ChallengeId, sid: SessionId, f: FamilyId)
    requires Drawn(s) && ch in s.challenges && s.challenges[ch].credential in s.credentials
    requires sid in s.sessions && f < s.next && Fate(Cleared(cfg, s, ch), sid, f, false)
    ensures Fate(SignedIn(cfg, s, ch), sid, f, false)
  {
    var base, t := Cleared(cfg, s, ch), SignedIn(cfg, s, ch);
    ClearedOnlyRevokes(cfg, s, ch);
    assert forall r | r in base.tokens :: r in t.tokens && t.tokens[r] == base.tokens[r];
  }

  lemma SignInFate(cfg: Settings, s: Store, ch: ChallengeId, sid: SessionId, f: FamilyId)
    requires Linked(cfg, s) && BothLive(s, sid, f) && ch in s.challenges
    ensures Fate(SignedIn(cfg, s, ch), sid, f, false)
  {
    ClearedFate(cfg, s, ch, sid, f);
    OpeningFate(cfg, s, ch, sid, f);
  }

  lemma RotationFate(cfg: Settings, s: Store, raw: Secret, sid: SessionId, f: FamilyId)
    requires Linked(cfg, s) && BothLive(s, sid, f) && Wins(s, raw)
    ensures Fate(RotateRefresh(cfg, s, raw).0, sid, f, false)
  {
    RotateShape(cfg, s, raw);
    var t := RotateRefresh(cfg, s, raw).0;
    var r :| r in s.tokens && s.tokens[r].family == f && !s.tokens[r].revoked;
    assert r in t.tokens && t.tokens[r].family == f && !t.tokens[r].revoked;
  }

  lemma RefusalFate(s: Store, raw: Secret, sid: SessionId, f: FamilyId)
    requires Agreeing(s) && BothLive(s, sid, f) && !Wins(s, raw)
    ensures Fate(ClaimToken(s, raw).0, sid, f, Reuses(s, DoRefresh(raw), f))
  {
    var t := ClaimToken(s, raw).0;
    RefusedClaimOnlyRevokes(s, raw);
    RevokedFate(s, t, sid, f, Reuses(s, DoRefresh(raw), f), Reuses(s, DoRefresh(raw), f));
  }

  lemma LogoutFate(s: Store, raw: Secret, sid: SessionId, f: FamilyId)
    requires Agreeing(s) && BothLive(s, sid, f)
    ensures Fate(Logout(s, raw).0, sid, f, false)
  {
    if raw in s.tokens {
      var t := Logout(s, raw).0;
      LogoutOnlyRevokes(s, raw);
      if s.tokens[raw].family == f {
        SessionOfFamilyFinds(s.sessions, f, sid);
      }
      RevokedFate(s, t, sid, f, s.tokens[raw].family == f, false);
    }
  }

  lemma SweptFate(cfg: Settings, s: Store, r: Request, sid: SessionId, f: FamilyId)
    requires Linked(cfg, s) && BothLive(s, sid, f)
    requires r.DoLogoutAll? || r.DoConfirmReset? || r.DoDisable?
    ensures Fate(Handle(cfg, s, r).0, sid, f, false)
  {
    match r {
      case DoLogoutAll(raw) =>
        if raw in s.tokens {
          SweepingFate(s, s.tokens[raw].credential, LoggedOutEverywhere, sid, f);
        }
      case DoConfirmReset(raw, password) =>
        if ResetUsable(s, raw) {
          var s1 := Repassworded(s, raw, password);
          RepasswordedRoots(cfg, s, raw, password);
          SameHoldingsKeep(cfg, s, s1);
          SweepingFate(s1, s.resets[raw].credential, ByPasswordReset, sid, f);
        }
      case DoDisable(id) =>
        if id in s.credentials {
          var u := RevokeAll(s, id, ByDisabling);
          assert Disable(s, id).0 == u.(credentials := Deactivated(s, id).credentials);
          SweepingFate(s, id, ByDisabling, sid, f);
        }
    }
  }

  lemma VerifyFate(cfg: Settings, s: Store, ch: ChallengeId, code: Secret, sid: SessionId, f: FamilyId)
    requires Linked(cfg, s) && BothLive(s, sid, f)
    ensures Fate(VerifyChallenge(cfg, s, ch, code).0, sid, f, false)
  {
    VerifyAnswers(cfg, s, ch, code);
    if Answers(s, ch, code) {
      SignInShape(cfg, s, ch, code);
      SignInFate(cfg, s, ch, sid, f);
    } else {
      FailedVerifyRoots(cfg, s, ch, code);
      UntouchedFate(s, VerifyChallenge(cfg, s, ch, code).0, sid, f);
    }
  }

  lemma RefreshFate(cfg: Settings, s: Store, raw: Secret, sid: SessionId, f: FamilyId)
    requires Linked(cfg, s) && BothLive(s, sid, f)
    ensures Fate(RotateRefresh(cfg, s, raw).0, sid, f, Reuses(s, DoRefresh(raw), f))
  {
    if Wins(s, raw) {
      RotationFate(cfg, s, raw, sid, f);
    } else {
      RefusalFate(s, raw, sid, f);
    }
  }

  lemma LeavingFate(cfg: Settings, s: Store, r: Request, sid: SessionId, f: FamilyId)
    requires Rooted(cfg, s) && BothLive(s, sid, f) && LeavesHoldings(r)
    ensures Fate(Handle(cfg, s, r).0, sid, f, false)
  {
    LeavesHoldingsRoots(cfg, s, r);
    UntouchedFate(s, Handle(cfg, s, r).0, sid, f);
  }

  /** The one request that kills a family and leaves its session live is a reuse. */
  lemma RequestFate(cfg: Settings, s: Store, r: Request, sid: SessionId, f: FamilyId)
    requires Linked(cfg, s) && BothLive(s, sid, f)
    ensures Fate(Handle(cfg, s, r).0, sid, f, Reuses(s, r, f))
  {
    match r {
      case DoVerify(ch, code) => VerifyFate(cfg, s, ch, code, sid, f);
      case DoRefresh(raw) => RefreshFate(cfg, s, raw, sid, f);
      case DoLogout(raw) => LogoutFate(s, raw, sid, f);
      case DoLogoutAll(_) => SweptFate(cfg, s, r, sid, f);
      case DoConfirmReset(_, _) => SweptFate(cfg, s, r, sid, f);
      case DoDisable(_) => SweptFate(cfg, s, r, sid, f);
      case _ => LeavingFate(cfg, s, r, sid, f);
    }
  }

  /** A live session tied to a dead family that has tokens. */
  ghost predicate LiveOverDead(s: Store, sid: SessionId, f: FamilyId, raw: Secret) {
    && sid in s.sessions && !s.sessions[sid].revoked && s.sessions[sid].family == Some(f)
    && raw in s.tokens && s.tokens[raw].family == f && Dead(s, f)
  }

  /** Detected reuse revokes the family and leaves its session live: "revoking one revokes both"
      (models.py:186) is false of it. */
  lemma ReuseLeavesSessionLive(cfg: Settings, s: Store, raw: Secret, sid: SessionId, f: FamilyId)
    requires Linked(cfg, s) && BothLive(s, sid, f) && Reuses(s, DoRefresh(raw), f)
    ensures var t := Handle(cfg, s, DoRefresh(raw)).0;
      LiveOverDead(t, sid, f, raw) && t.sessions == s.sessions
  {
    assert Handle(cfg, s, DoRefresh(raw)).0 == s.(tokens := RevokeFamily(s.tokens, f));
  }

  /** A deployment with one user who has just asked for a sign-in code. */
  function AskedForCode(cfg: Settings): Store {
    var x := Challenge(0, 8, cfg.ResolveAudience(""), cfg.otpTtl, 0, 1, 0, false, 0);
    Store(0, 2, map[0 := Credential(Some(7), 0, None, false)], map[1 := x], map[], map[], map[], map[])
  }

  function AskForCode(): seq<Event> {
    [Event(0, DoSignUp(7)), Event(0, DoLogin(0, 7, "", 8, true))]
  }

  lemma AskingForCode(cfg: Settings)
    ensures Run(cfg, EMPTY, AskForCode()) == AskedForCode(cfg)
  {
    var e1, e2 := Event(0, DoSignUp(7)), Event(0, DoLogin(0, 7, "", 8, true));
    var s1 := Step(cfg, EMPTY, e1).0;
    assert s1 == Store(0, 1, map[0 := Credential(Some(7), 0, None, false)], map[], map[], map[], map[], map[]);
    assert Step(cfg, s1, e2).0 == AskedForCode(cfg);
    assert [e1, e2][1..] == [e2];
    assert Run(cfg, EMPTY, [e1, e2]) == Run(cfg, s1, [e2]) == Run(cfg, AskedForCode(cfg), []);
  }

  lemma AskedForCodeIsLinked(cfg: Settings)
    ensures Linked(cfg, AskedForCode(cfg))
  {
    EmptyIsLinked(cfg);
    RunKeeps(cfg, EMPTY, AskForCode());
    AskingForCode(cfg);
  }

  /** Session 2 of credential 0 with an unused refresh token 3 of family 4. */
  ghost predicate FreshlySignedIn(s: Store) {
    && BothLive(s, 2, 4) && Enabled(s, 0)
    && 3 in s.tokens && s.tokens[3].credential == 0 && s.tokens[3].family == 4
    && !s.tokens[3].rotated && !s.tokens[3].revoked && s.now <= s.tokens[3].expiresAt
  }

  lemma AnsweringCode(cfg: Settings)
    requires cfg.otpTtl >= 0 && cfg.refreshTokenTtl >= 0
    ensures FreshlySignedIn(VerifyChallenge(cfg, AskedForCode(cfg), 1, 8).0)
  {
    SignInShape(cfg, AskedForCode(cfg), 1, 8);
    var s := SignedIn(cfg, AskedForCode(cfg), 1);
    assert 3 in s.tokens && s.tokens[3].family == 4;
  }

  lemma FirstRefreshWins(cfg: Settings, s: Store)
    requires Linked(cfg, s) && FreshlySignedIn(s)
    ensures var t := RotateRefresh(cfg, s, 3).0;
      Linked(cfg, t) && BothLive(t, 2, 4) && Reuses(t, DoRefresh(3), 4)
  {
    SessionOfFamilyFinds(s.sessions, 4, 2);
    assert Wins(s, 3);
    RotateShape(cfg, s, 3);
    RotateKeeps(cfg, s, 3);
    RotationFate(cfg, s, 3, 2, 4);
  }

  lemma RunHead(cfg: Settings, s: Store, r: Request, rest: seq<Event>)
    ensures Run(cfg, s, [Event(0, r)] + rest) == Run(cfg, Handle(cfg, s, r).0, rest)
  {
    assert ([Event(0, r)] + rest)[1..] == rest;
    assert Tick(s, 0) == s;
  }

  lemma TwiceTheSame(cfg: Settings, s: Store)
    requires Linked(cfg, s) && FreshlySignedIn(s)
    ensures LiveOverDead(RotateRefresh(cfg, RotateRefresh(cfg, s, 3).0, 3).0, 2, 4, 3)
  {
    FirstRefreshWins(cfg, s);
    ReuseLeavesSessionLive(cfg, RotateRefresh(cfg, s, 3).0, 3, 2, 4);
  }

  function RefreshTwice(): seq<Event> {
    [Event(0, DoVerify(1, 8))] + ([Event(0, DoRefresh(3))] + ([Event(0, DoRefresh(3))] + []))
  }

  lemma RunRefreshTwice(cfg: Settings, s: Store)
    ensures Run(cfg, s, RefreshTwice())
         == RotateRefresh(cfg, RotateRefresh(cfg, VerifyChallenge(cfg, s, 1, 8).0, 3).0, 3).0
  {
    var s1 := Handle(cfg, s, DoVerify(1, 8)).0;
    var s2 := Handle(cfg, s1, DoRefresh(3)).0;
    RunHead(cfg, s, DoVerify(1, 8), [Event(0, DoRefresh(3))] + ([Event(0, DoRefresh(3))] + []));
    RunHead(cfg, s1, DoRefresh(3), [Event(0, DoRefresh(3))] + []);
    RunHead(cfg, s2, DoRefresh(3), []);
  }

  /** One refresh and the same one again: the session is live and its family is dead. */
  lemma ReuseIsReached(cfg: Settings)
    requires cfg.otpTtl >= 0 && cfg.refreshTokenTtl >= 0
    ensures LiveOverDead(Run(cfg, Run(cfg, EMPTY, AskForCode()), RefreshTwice()), 2, 4, 3)
  {
    AskingForCode(cfg);
    AskedForCodeIsLinked(cfg);
    AnsweringCode(cfg);
    VerifyKeeps(cfg, AskedForCode(cfg), 1, 8);
    TwiceTheSame(cfg, VerifyChallenge(cfg, AskedForCode(cfg), 1, 8).0);
    RunRefreshTwice(cfg, AskedForCode(cfg));
  }

  /** Some event of the run presents a spent or revoked token of `f`. */
  ghost predicate Reused(cfg: Settings, s: Store, es: seq<Event>, f: FamilyId)
    decreases |es|
  {
    es != [] && (Reuses(Tick(s, es[0].elapsed), es[0].request, f) || Reused(cfg, Step(cfg, s, es[0]).0, es[1..], f))
  }

  lemma RequestKeepsTie(cfg: Settings, s: Store, sid: SessionId, r: Request)
    requires Rooted(cfg, s) && sid in s.sessions && s.sessions[sid].family.Some?
    ensures var t := Handle(cfg, s, r).0;
      sid in t.sessions && t.sessions[sid].family == s.sessions[sid].family
  {
    HandleShaped(cfg, s, r);
    if SignsIn(s, r) {
      ClearedOnlyRevokes(cfg, s, r.challenge);
    }
  }

  lemma {:induction false} TiePersists(cfg: Settings, s: Store, es: seq<Event>, sid: SessionId)
    requires Linked(cfg, s) && sid in s.sessions && s.sessions[sid].family.Some?
    ensures sid in Run(cfg, s, es).sessions && Run(cfg, s, es).sessions[sid].family == s.sessions[sid].family
    decreases |es|
  {
    if es != [] {
      TickKeeps(cfg, s, es[0].elapsed);
      RequestKeepsTie(cfg, Tick(s, es[0].elapsed), sid, es[0].request);
      StepKeeps(cfg, s, es[0]);
      TiePersists(cfg, Step(cfg, s, es[0]).0, es[1..], sid);
    }
  }

  lemma {:induction false} DeadStays(cfg: Settings, s: Store, es: seq<Event>, sid: SessionId, f: FamilyId)
    requires Linked(cfg, s) && Dead(s, f) && sid in s.sessions && s.sessions[sid].family == Some(f)
    ensures Dead(Run(cfg, s, es), f)
    ensures sid in Run(cfg, s, es).sessions && Run(cfg, s, es).sessions[sid].family == Some(f)
  {
    DeadFamilyStaysDead(cfg, s, es, f);
    TiePersists(cfg, s, es, sid);
  }

  /** In every run a family is dead if and only if its session has ended or one of its tokens was
      presented again: exactly what is left of "revoking one revokes both". */
  lemma {:induction false} RevokedTogetherOrReused(cfg: Settings, s: Store, es: seq<Event>, sid: SessionId, f: FamilyId)
    requires Linked(cfg, s) && BothLive(s, sid, f)
    ensures Fate(Run(cfg, s, es), sid, f, Reused(cfg, s, es, f))
    decreases |es|
  {
    if es != [] {
      var s1, t, rest := Tick(s, es[0].elapsed), Step(cfg, s, es[0]).0, es[1..];
      TickKeeps(cfg, s, es[0].elapsed);
      RequestFate(cfg, s1, es[0].request, sid, f);
      StepKeeps(cfg, s, es[0]);
      if Dead(t, f) {
        DeadStays(cfg, t, rest, sid, f);
        if t.sessions[sid].revoked {
          EndedRowStays(cfg, t, rest, sid);
        }
      } else {
        RevokedTogetherOrReused(cfg, t, rest, sid, f);
      }
    }
  }
}
