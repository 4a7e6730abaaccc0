/** The three things a request can do to sessions and tokens: revoke, sign in, rotate. */
module Shapes {
  import opened Options
  import opened Settings
  import opened Tables
  import opened Sessions
  import opened SignIn
  import opened Accounts
  import opened Machine
  import opened Invariants

  /** The store a sign-in starts from: the challenge spent and, under the one-session policy,
      every live session of the credential ended. */
  ghost function Cleared(cfg: Settings, s: Store, ch: ChallengeId): Store
    requires ch in s.challenges && s.challenges[ch].credential in s.credentials
  {
    var c := s.challenges[ch].credential;
    if cfg.singleSession then RevokeSessions(Accepted(s, ch), c, Superseded) else Accepted(s, ch)
  }

  lemma ClearedOnlyRevokes(cfg: Settings, s: Store, ch: ChallengeId)
    requires ch in s.challenges && s.challenges[ch].credential in s.credentials
    ensures OnlyRevokes(s, Cleared(cfg, s, ch))
  {
  }

  /** The store after a sign-in, with its three fresh names spelled out. */
  ghost function SignedIn(cfg: Settings, s: Store, ch: ChallengeId): Store
    requires ch in s.challenges && s.challenges[ch].credential in s.credentials
  {
    var c := s.challenges[ch].credential;
    var audience := cfg.ResolveAudience(s.challenges[ch].audience);
    var base := Cleared(cfg, s, ch);
    var sid, raw, f := s.next, s.next + 1, s.next + 2;
    base.(next := s.next + 3,
          sessions := base.sessions[sid := Session(c, audience, Some(f), false, None, None)],
          tokens := base.tokens[raw := RefreshToken(c, f, audience, s.now + cfg.refreshTokenTtl, false, false)])
  }

  ghost function SignInGrant(cfg: Settings, s: Store, ch: ChallengeId): Outcome
    requires ch in s.challenges
  {
    var x := s.challenges[ch];
    Granted(AccessToken(x.credential, cfg.ResolveAudience(x.audience), s.next), s.next + 1)
  }

  lemma SignInShape(cfg: Settings, s: Store, ch: ChallengeId, code: Secret)
    requires Answers(s, ch, code)
    ensures VerifyChallenge(cfg, s, ch, code) == (SignedIn(cfg, s, ch), SignInGrant(cfg, s, ch))
  {
    VerifyAnswers(cfg, s, ch, code);
    var t := VerifyChallenge(cfg, s, ch, code).0;
    var base := Cleared(cfg, s, ch);
    var sid := s.next;
    assert t.sessions == base.sessions[sid := SignedIn(cfg, s, ch).sessions[sid]];
  }

  /** The sid a rotation answers with: the family's session, or a new one adopting the family. */
  ghost function SidOf(s: Store, claim: Claim): SessionId
    requires claim.Claimed?
  {
    if claim.session.Some? then claim.session.value else s.next
  }

  ghost function ChildOf(s: Store, claim: Claim): Secret
    requires claim.Claimed?
  {
    if claim.session.Some? then s.next else s.next + 1
  }

  ghost function RotationGrant(cfg: Settings, s: Store, claim: Claim): Outcome
    requires claim.Claimed?
  {
    Granted(AccessToken(claim.credential, cfg.ResolveAudience(claim.audience), SidOf(s, claim)), ChildOf(s, claim))
  }

  /** The store after the second transaction of a rotation. */
  ghost function Finished(cfg: Settings, s: Store, claim: Claim): Store
    requires claim.Claimed?
  {
    var audience := cfg.ResolveAudience(claim.audience);
    var child := ChildOf(s, claim);
    s.(next := child + 2,
       tokens := s.tokens[child := RefreshToken(claim.credential, claim.family, audience,
                                                s.now + cfg.refreshTokenTtl, false, false)],
       sessions := if claim.session.Some? then s.sessions
                   else s.sessions[s.next := Session(claim.credential, audience, Some(claim.family),
                                                     false, None, None)])
  }

  /** A claim names no session, or the one tied to its family. */
  ghost predicate Tied(s: Store, claim: Claim) {
    && claim.Claimed?
    && (claim.session.Some? ==>
          && claim.session.value in s.sessions
          && s.sessions[claim.session.value].family == Some(claim.family))
  }

  lemma FinishShape(cfg: Settings, s: Store, claim: Claim)
    requires Tied(s, claim)
    ensures FinishRotation(cfg, s, claim) == (Finished(cfg, s, claim), RotationGrant(cfg, s, claim))
  {
    if claim.session.None? {
      var t := FinishRotation(cfg, s, claim).0;
      assert t.sessions == Finished(cfg, s, claim).sessions;
    }
  }

  lemma ClaimIsTied(s: Store, raw: Secret)
    requires ClaimToken(s, raw).1.Claimed?
    ensures Tied(ClaimToken(s, raw).0, ClaimToken(s, raw).1)
  {
  }

  ghost predicate Wins(s: Store, raw: Secret) {
    ClaimToken(s, raw).1.Claimed?
  }

  lemma RotateShape(cfg: Settings, s: Store, raw: Secret)
    ensures RotateRefresh(cfg, s, raw).1.Granted? <==> Wins(s, raw)
    ensures Wins(s, raw) ==>
      var (t, claim) := ClaimToken(s, raw);
      RotateRefresh(cfg, s, raw) == (Finished(cfg, t, claim), RotationGrant(cfg, t, claim))
  {
    if Wins(s, raw) {
      ClaimIsTied(s, raw);
      FinishShape(cfg, ClaimToken(s, raw).0, ClaimToken(s, raw).1);
    }
  }

  ghost predicate SignsIn(s: Store, r: Request) {
    r.DoVerify? && Answers(s, r.challenge, r.code)
  }

  ghost predicate Rotates(s: Store, r: Request) {
    r.DoRefresh? && Wins(s, r.raw)
  }

  lemma LogoutOnlyRevokes(s: Store, raw: Secret)
    ensures OnlyRevokes(s, Logout(s, raw).0)
  {
    if raw in s.tokens {
      var t := Logout(s, raw).0;
      assert TokensOnlyRevoked(s.tokens, RevokeFamily(s.tokens, s.tokens[raw].family));
      assert SessionsOnlyEnded(s.sessions, t.sessions);
    }
  }

  lemma ConfirmResetOnlyRevokes(s: Store, raw: Secret, password: Secret)
    ensures OnlyRevokes(s, ConfirmReset(s, raw, password).0)
  {
    if ResetUsable(s, raw) {
      RevokeAllOnlyRevokes(Repassworded(s, raw, password), s.resets[raw].credential, ByPasswordReset);
    }
  }

  lemma DisableOnlyRevokes(s: Store, id: CredentialId)
    ensures OnlyRevokes(s, Disable(s, id).0)
  {
    if id in s.credentials {
      RevokeAllOnlyRevokes(Deactivated(s, id), id, ByDisabling);
    }
  }

  lemma LogoutAllOnlyRevokes(s: Store, raw: Secret)
    ensures OnlyRevokes(s, LogoutAll(s, raw).0)
  {
    if raw in s.tokens {
      RevokeAllOnlyRevokes(s, s.tokens[raw].credential, LoggedOutEverywhere);
    }
  }

  lemma SameHoldingsOnlyRevoke(s: Store, t: Store)
    requires SameHoldings(s, t)
    ensures OnlyRevokes(s, t)
  {
  }

  lemma RefusedVerifyOnlyRevokes(cfg: Settings, s: Store, ch: ChallengeId, code: Secret)
    requires Rooted(cfg, s) && !Answers(s, ch, code)
    ensures OnlyRevokes(s, VerifyChallenge(cfg, s, ch, code).0) && !VerifyChallenge(cfg, s, ch, code).1.Granted?
  {
    VerifyAnswers(cfg, s, ch, code);
    FailedVerifyRoots(cfg, s, ch, code);
    SameHoldingsOnlyRevoke(s, VerifyChallenge(cfg, s, ch, code).0);
  }

  lemma RefusedClaimOnlyRevokes(s: Store, raw: Secret)
    requires !Wins(s, raw)
    ensures OnlyRevokes(s, ClaimToken(s, raw).0)
  {
    if raw in s.tokens {
      var f := s.tokens[raw].family;
      assert TokensOnlyRevoked(s.tokens, RevokeFamily(s.tokens, f));
    }
  }

  lemma RefusedRefreshOnlyRevokes(cfg: Settings, s: Store, raw: Secret)
    requires !Wins(s, raw)
    ensures OnlyRevokes(s, RotateRefresh(cfg, s, raw).0) && !RotateRefresh(cfg, s, raw).1.Granted?
  {
    RefusedClaimOnlyRevokes(s, raw);
  }

  /** Every request that neither signs in nor rotates at most revokes, and mints nothing. */
  lemma OthersOnlyRevoke(cfg: Settings, s: Store, r: Request)
    requires Rooted(cfg, s)
    requires !SignsIn(s, r) && !Rotates(s, r)
    ensures OnlyRevokes(s, Handle(cfg, s, r).0)
    ensures !Handle(cfg, s, r).1.Granted?
  {
    match r {
      case DoVerify(ch, code) => RefusedVerifyOnlyRevokes(cfg, s, ch, code);
      case DoRefresh(raw) => RefusedRefreshOnlyRevokes(cfg, s, raw);
      case DoLogout(raw) => LogoutOnlyRevokes(s, raw);
      case DoLogoutAll(raw) => LogoutAllOnlyRevokes(s, raw);
      case DoConfirmReset(raw, password) => ConfirmResetOnlyRevokes(s, raw, password);
      case DoDisable(id) => DisableOnlyRevokes(s, id);
      case _ =>
        LeavesHoldingsRoots(cfg, s, r);
        SameHoldingsOnlyRevoke(s, Handle(cfg, s, r).0);
    }
  }

  /** `t` and `o` are what one of the three things a request can do makes of `s`. */
  ghost predicate Shaped(cfg: Settings, s: Store, r: Request, t: Store, o: Outcome) {
    && s.next <= t.next
    && if SignsIn(s, r) then t == SignedIn(cfg, s, r.challenge) && o == SignInGrant(cfg, s, r.challenge)
       else if Rotates(s, r) then
         var (u, claim) := ClaimToken(s, r.raw);
         t == Finished(cfg, u, claim) && o == RotationGrant(cfg, u, claim)
       else OnlyRevokes(s, t) && !o.Granted?
  }

  lemma HandleShaped(cfg: Settings, s: Store, r: Request)
    requires Rooted(cfg, s)
    ensures Shaped(cfg, s, r, Handle(cfg, s, r).0, Handle(cfg, s, r).1)
  {
    SupplyGrows(cfg, s, r);
    if SignsIn(s, r) {
      SignInShape(cfg, s, r.challenge, r.code);
    } else if Rotates(s, r) {
      RotateShape(cfg, s, r.raw);
    } else {
      OthersOnlyRevoke(cfg, s, r);
    }
  }

  /** Credentials are never lost, and none of them goes from disabled to enabled. */
  ghost predicate StandingKept(s: Store, t: Store) {
    forall c | c in s.credentials ::
      c in t.credentials && (s.credentials[c].disabled ==> t.credentials[c].disabled)
  }

  lemma SignInKeepsStanding(cfg: Settings, s: Store, ch: ChallengeId)
    requires ch in s.challenges && s.challenges[ch].credential in s.credentials
    ensures StandingKept(s, SignedIn(cfg, s, ch))
  {
  }

  lemma RotateKeepsStanding(cfg: Settings, s: Store, raw: Secret)
    ensures RotateRefresh(cfg, s, raw).0.credentials == s.credentials
  {
    RotateShape(cfg, s, raw);
  }

  lemma EndingsKeepStanding(cfg: Settings, s: Store, r: Request)
    requires r.DoLogout? || r.DoLogoutAll? || r.DoConfirmReset? || r.DoDisable?
    ensures StandingKept(s, Handle(cfg, s, r).0)
  {
  }

  lemma VerifyKeepsStanding(cfg: Settings, s: Store, ch: ChallengeId, code: Secret)
    requires Rooted(cfg, s)
    ensures StandingKept(s, VerifyChallenge(cfg, s, ch, code).0)
  {
    VerifyAnswers(cfg, s, ch, code);
    if Answers(s, ch, code) {
      SignInShape(cfg, s, ch, code);
      SignInKeepsStanding(cfg, s, ch);
    } else {
      FailedVerifyRoots(cfg, s, ch, code);
    }
  }

  lemma HandleKeepsStanding(cfg: Settings, s: Store, r: Request)
    requires Rooted(cfg, s)
    ensures StandingKept(s, Handle(cfg, s, r).0)
  {
    match r {
      case DoVerify(ch, code) => VerifyKeepsStanding(cfg, s, ch, code);
      case DoRefresh(raw) => RotateKeepsStanding(cfg, s, raw);
      case DoLogout(_) => EndingsKeepStanding(cfg, s, r);
      case DoLogoutAll(_) => EndingsKeepStanding(cfg, s, r);
      case DoConfirmReset(_, _) => EndingsKeepStanding(cfg, s, r);
      case DoDisable(_) => EndingsKeepStanding(cfg, s, r);
      case _ => LeavesHoldingsRoots(cfg, s, r);
    }
  }

  // --- Roots without agreement ------------------------------------------------

  lemma OnlyRevokesRoots(cfg: Settings, s: Store, t: Store)
    requires Rooted(cfg, s) && OnlyRevokes(s, t) && t == s.(tokens := t.tokens, sessions := t.sessions)
    ensures Rooted(cfg, t)
  {
  }

  lemma RevokeAllRoots(cfg: Settings, s: Store, c: CredentialId, reason: EndedBy)
    requires Rooted(cfg, s)
    ensures Rooted(cfg, RevokeAll(s, c, reason))
  {
    RevokeAllOnlyRevokes(s, c, reason);
    OnlyRevokesRoots(cfg, s, RevokeAll(s, c, reason));
  }

  lemma GrowthRoots(cfg: Settings, s: Store, t: Store, sid: SessionId, x: Session, raw: Secret, token: RefreshToken)
    requires Rooted(cfg, s) && s.next <= t.next
    requires t == s.(next := t.next, sessions := s.sessions[sid := x], tokens := s.tokens[raw := token])
    requires sid < t.next && raw < t.next && token.family < t.next && x.family == Some(token.family)
    requires x.credential in s.credentials && token.credential in s.credentials
    requires cfg.ResolveAudience(token.audience) == token.audience
    ensures Rooted(cfg, t)
  {
  }

  lemma ClearedRoots(cfg: Settings, s: Store, ch: ChallengeId)
    requires Rooted(cfg, s) && ch in s.challenges
    ensures Rooted(cfg, Cleared(cfg, s, ch)) && Cleared(cfg, s, ch).next == s.next
  {
    var base := Cleared(cfg, s, ch);
    AcceptedRoots(cfg, s, ch);
    ClearedOnlyRevokes(cfg, s, ch);
    OnlyRevokesRoots(cfg, Accepted(s, ch), base);
  }

  lemma SignedInRoots(cfg: Settings, s: Store, ch: ChallengeId)
    requires Rooted(cfg, s) && ch in s.challenges
    ensures Rooted(cfg, SignedIn(cfg, s, ch))
  {
    var c, audience := s.challenges[ch].credential, cfg.ResolveAudience(s.challenges[ch].audience);
    var x := Session(c, audience, Some(s.next + 2), false, None, None);
    var token := RefreshToken(c, s.next + 2, audience, s.now + cfg.refreshTokenTtl, false, false);
    ClearedRoots(cfg, s, ch);
    GrowthRoots(cfg, Cleared(cfg, s, ch), SignedIn(cfg, s, ch), s.next, x, s.next + 1, token);
  }

  /** The names a claim carries are in use. */
  ghost predicate ClaimRooted(s: Store, claim: Claim) {
    Tied(s, claim) && claim.credential in s.credentials && claim.family < s.next
  }

  lemma FinishedRoots(cfg: Settings, s: Store, claim: Claim)
    requires Rooted(cfg, s) && ClaimRooted(s, claim)
    ensures Rooted(cfg, Finished(cfg, s, claim))
  {
  }

  lemma RefusedClaimRoots(cfg: Settings, s: Store, raw: Secret)
    requires Rooted(cfg, s) && !Wins(s, raw)
    ensures Rooted(cfg, ClaimToken(s, raw).0)
  {
    var t := ClaimToken(s, raw).0;
    if t != s {
      OnlyRevokesRoots(cfg, s, t);
    }
  }

  lemma WonClaimRoots(cfg: Settings, s: Store, raw: Secret)
    requires Rooted(cfg, s) && Wins(s, raw)
    ensures Rooted(cfg, ClaimToken(s, raw).0)
    ensures ClaimRooted(ClaimToken(s, raw).0, ClaimToken(s, raw).1)
  {
    assert ClaimToken(s, raw).0 == s.(tokens := s.tokens[raw := s.tokens[raw].(rotated := true)]);
  }

  lemma ClaimRoots(cfg: Settings, s: Store, raw: Secret)
    requires Rooted(cfg, s)
    ensures Rooted(cfg, ClaimToken(s, raw).0)
    ensures Wins(s, raw) ==> ClaimRooted(ClaimToken(s, raw).0, ClaimToken(s, raw).1)
  {
    if Wins(s, raw) {
      WonClaimRoots(cfg, s, raw);
    } else {
      RefusedClaimRoots(cfg, s, raw);
    }
  }

  lemma VerifyRoots(cfg: Settings, s: Store, ch: ChallengeId, code: Secret)
    requires Rooted(cfg, s)
    ensures Rooted(cfg, VerifyChallenge(cfg, s, ch, code).0)
  {
    VerifyAnswers(cfg, s, ch, code);
    if Answers(s, ch, code) {
      SignInShape(cfg, s, ch, code);
      SignedInRoots(cfg, s, ch);
    } else {
      FailedVerifyRoots(cfg, s, ch, code);
    }
  }

  lemma DisableRoots(cfg: Settings, s: Store, id: CredentialId)
    requires Rooted(cfg, s)
    ensures Rooted(cfg, Disable(s, id).0)
  {
    if id in s.credentials {
      RevokeAllRoots(cfg, Deactivated(s, id), id, ByDisabling);
    }
  }

  lemma RotateRoots(cfg: Settings, s: Store, raw: Secret)
    requires Rooted(cfg, s)
    ensures Rooted(cfg, RotateRefresh(cfg, s, raw).0)
  {
    RotateShape(cfg, s, raw);
    ClaimRoots(cfg, s, raw);
    if Wins(s, raw) {
      FinishedRoots(cfg, ClaimToken(s, raw).0, ClaimToken(s, raw).1);
    }
  }

  /** Names stay drawn, foreign keys resolve and audiences stay clamped, with or without the
      agreement of families and sessions. */
  lemma HandleRoots(cfg: Settings, s: Store, r: Request)
    requires Rooted(cfg, s)
    ensures Rooted(cfg, Handle(cfg, s, r).0)
  {
    match r {
      case DoVerify(ch, code) => VerifyRoots(cfg, s, ch, code);
      case DoRefresh(raw) => RotateRoots(cfg, s, raw);
      case DoLogout(raw) =>
        LogoutOnlyRevokes(s, raw);
        OnlyRevokesRoots(cfg, s, Logout(s, raw).0);
      case DoLogoutAll(raw) =>
        if raw in s.tokens {
          RevokeAllRoots(cfg, s, s.tokens[raw].credential, LoggedOutEverywhere);
        }
      case DoConfirmReset(raw, password) =>
        if ResetUsable(s, raw) {
          RepasswordedRoots(cfg, s, raw, password);
          RevokeAllRoots(cfg, Repassworded(s, raw, password), s.resets[raw].credential, ByPasswordReset);
        }
      case DoDisable(id) => DisableRoots(cfg, s, id);
      case _ => LeavesHoldingsRoots(cfg, s, r);
    }
  }
}
