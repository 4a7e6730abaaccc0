/** What products are told about a session (services.py:470-497) over whole runs: an access token's `sid`
    is reported live from its grant on, until a request ends its session, and never again. */
module Liveness {
  import opened Options
  import opened Settings
  import opened Tables
  import opened Sessions
  import opened SignIn
  import opened Accounts
  import opened Machine
  import opened Invariants
  import opened Shapes
  import opened Introspection
  import Endings
  import SingleSession

  // --- What ends a session, and what does not ----------------------------------

  /** How the request ends session `x`, if it does. */
  ghost function EndingOf(cfg: Settings, s: Store, r: Request, x: Session): Option<EndedBy> {
    match r
    case DoVerify(ch, code) =>
      if Answers(s, ch, code) && cfg.singleSession && s.challenges[ch].credential == x.credential
      then Some(Superseded) else None
    case DoLogout(raw) => if raw in s.tokens && x.family == Some(s.tokens[raw].family) then Some(LoggedOut) else None
    case DoLogoutAll(raw) =>
      if raw in s.tokens && s.tokens[raw].credential == x.credential then Some(LoggedOutEverywhere) else None
    case DoConfirmReset(raw, _) =>
      if ResetUsable(s, raw) && s.resets[raw].credential == x.credential then Some(ByPasswordReset) else None
    case DoDisable(c) => if c in s.credentials && c == x.credential then Some(ByDisabling) else None
    case _ => None
  }

  /** From row `x` at time `now`: as it was, or ended for the reason given. */
  predicate MovedTo(x: Session, y: Session, ending: Option<EndedBy>, now: int) {
    y == if ending.None? then x else x.(revoked := true, reason := ending, revokedAt := Some(now))
  }

  /** The row of live session `sid` moves as `EndingOf` says, and not otherwise. */
  ghost predicate SessionMoves(cfg: Settings, s: Store, r: Request, t: Store, sid: SessionId) {
    && sid in s.sessions && sid in t.sessions
    && MovedTo(s.sessions[sid], t.sessions[sid], EndingOf(cfg, s, r, s.sessions[sid]), s.now)
  }

  lemma SweepMoves(s: Store, c: CredentialId, reason: EndedBy, sid: SessionId)
    requires sid in s.sessions && !s.sessions[sid].revoked
    ensures var t := RevokeAll(s, c, reason);
      && sid in t.sessions
      && MovedTo(s.sessions[sid], t.sessions[sid],
                 if s.sessions[sid].credential == c then Some(reason) else None, s.now)
  {
  }

  lemma LogoutMoves(cfg: Settings, s: Store, raw: Secret, sid: SessionId)
    requires OneSessionPerFamily(s.sessions) && sid in s.sessions && !s.sessions[sid].revoked
    ensures SessionMoves(cfg, s, DoLogout(raw), Logout(s, raw).0, sid)
  {
    if raw in s.tokens && s.sessions[sid].family == Some(s.tokens[raw].family) {
      SessionOfFamilyFinds(s.sessions, s.tokens[raw].family, sid);
    }
  }

  lemma SignInMoves(cfg: Settings, s: Store, ch: ChallengeId, code: Secret, sid: SessionId)
    requires Drawn(s) && Answers(s, ch, code) && sid in s.sessions && !s.sessions[sid].revoked
    ensures SessionMoves(cfg, s, DoVerify(ch, code), SignedIn(cfg, s, ch), sid)
  {
  }

  lemma RotationMoves(cfg: Settings, s: Store, raw: Secret, sid: SessionId)
    requires Drawn(s) && sid in s.sessions && !s.sessions[sid].revoked
    ensures SessionMoves(cfg, s, DoRefresh(raw), RotateRefresh(cfg, s, raw).0, sid)
  {
    RotateShape(cfg, s, raw);
  }

  lemma VerifyMoves(cfg: Settings, s: Store, ch: ChallengeId, code: Secret, sid: SessionId)
    requires Rooted(cfg, s) && sid in s.sessions && !s.sessions[sid].revoked
    ensures SessionMoves(cfg, s, DoVerify(ch, code), VerifyChallenge(cfg, s, ch, code).0, sid)
  {
    VerifyAnswers(cfg, s, ch, code);
    if Answers(s, ch, code) {
      SignInShape(cfg, s, ch, code);
      SignInMoves(cfg, s, ch, code, sid);
    } else {
      FailedVerifyRoots(cfg, s, ch, code);
    }
  }

  lemma SweepingMoves(cfg: Settings, s: Store, r: Request, sid: SessionId)
    requires Owned(s) && sid in s.sessions && !s.sessions[sid].revoked
    requires r.DoLogoutAll? || r.DoConfirmReset? || r.DoDisable?
    ensures SessionMoves(cfg, s, r, Handle(cfg, s, r).0, sid)
  {
    match r {
      case DoLogoutAll(raw) =>
        if raw in s.tokens {
          SweepMoves(s, s.tokens[raw].credential, LoggedOutEverywhere, sid);
        }
      case DoConfirmReset(raw, password) =>
        if ResetUsable(s, raw) {
          SweepMoves(Repassworded(s, raw, password), s.resets[raw].credential, ByPasswordReset, sid);
        }
      case DoDisable(c) =>
        if c in s.credentials {
          SweepMoves(Deactivated(s, c), c, ByDisabling, sid);
        }
    }
  }

  /** A live session ends exactly when a request ends it: its holder signs in under the policy, its own
      family logs out, its holder logs out everywhere, resets the password or is disabled; and the row
      says which and when. Nothing else touches it. */
  lemma RequestMovesSession(cfg: Settings, s: Store, r: Request, sid: SessionId)
    requires Linked(cfg, s) && sid in s.sessions && !s.sessions[sid].revoked
    ensures SessionMoves(cfg, s, r, Handle(cfg, s, r).0, sid)
  {
    match r {
      case DoVerify(ch, code) => VerifyMoves(cfg, s, ch, code, sid);
      case DoRefresh(raw) => RotationMoves(cfg, s, raw, sid);
      case DoLogout(raw) => LogoutMoves(cfg, s, raw, sid);
      case DoLogoutAll(_) => SweepingMoves(cfg, s, r, sid);
      case DoConfirmReset(_, _) => SweepingMoves(cfg, s, r, sid);
      case DoDisable(_) => SweepingMoves(cfg, s, r, sid);
      case _ => LeavesHoldingsRoots(cfg, s, r);
    }
  }

  // --- What is reported -------------------------------------------------------

  /** Some event of the run ends session `x`. */
  ghost predicate EndedInRun(cfg: Settings, s: Store, es: seq<Event>, x: Session)
    decreases |es|
  {
    es != [] && (EndingOf(cfg, Tick(s, es[0].elapsed), es[0].request, x).Some?
                 || EndedInRun(cfg, Step(cfg, s, es[0]).0, es[1..], x))
  }

  lemma {:induction false} LiveUntilEnded(cfg: Settings, s: Store, es: seq<Event>, sid: SessionId)
    requires Linked(cfg, s) && sid in s.sessions && !s.sessions[sid].revoked
    ensures var t := Run(cfg, s, es);
      sid in t.sessions && (t.sessions[sid].revoked <==> EndedInRun(cfg, s, es, s.sessions[sid]))
    decreases |es|
  {
    if es != [] {
      var s1, t := Tick(s, es[0].elapsed), Step(cfg, s, es[0]).0;
      TickKeeps(cfg, s, es[0].elapsed);
      RequestMovesSession(cfg, s1, es[0].request, sid);
      StepKeeps(cfg, s, es[0]);
      if t.sessions[sid].revoked {
        Endings.EndedRowStays(cfg, t, es[1..], sid);
      } else {
        LiveUntilEnded(cfg, t, es[1..], sid);
      }
    }
  }

  /** The answer to any batch, at any later time, has a session that was live exactly when it was asked
      about and no request has ended it since. */
  lemma {:induction false} ReportedUntilEnded(cfg: Settings, s: Store, es: seq<Event>, sid: SessionId,
                                              ids: seq<SessionId>)
    requires Linked(cfg, s) && sid in s.sessions && !s.sessions[sid].revoked
    ensures sid in LiveSessionIds(Run(cfg, s, es).sessions, ids)
       <==> sid in ids && !EndedInRun(cfg, s, es, s.sessions[sid])
  {
    LiveUntilEnded(cfg, s, es, sid);
    AnswersInOrder(Run(cfg, s, es).sessions, ids);
  }

  /** Once a session has ended, no answer to any batch has it again. */
  lemma {:induction false} EndedIsNeverReported(cfg: Settings, s: Store, es: seq<Event>, sid: SessionId,
                                                ids: seq<SessionId>)
    requires Linked(cfg, s) && sid in s.sessions && s.sessions[sid].revoked
    ensures sid !in LiveSessionIds(Run(cfg, s, es).sessions, ids)
  {
    Endings.EndedRowStays(cfg, s, es, sid);
    AnswersInOrder(Run(cfg, s, es).sessions, ids);
  }

  lemma GrantIsLive(cfg: Settings, s: Store, r: Request)
    requires Linked(cfg, s) && Handle(cfg, s, r).1.Granted?
    ensures var (t, o) := Handle(cfg, s, r); o.access.sid in t.sessions && !t.sessions[o.access.sid].revoked
  {
    HandleShaped(cfg, s, r);
  }

  /** So the `sid` of an access token is reported live from the grant on, exactly until its session is
      ended. */
  lemma {:induction false} GrantedIsReportedUntilEnded(cfg: Settings, s: Store, e: Event, es: seq<Event>,
                                                       ids: seq<SessionId>)
    requires Linked(cfg, s) && Step(cfg, s, e).1.Granted?
    ensures var (t, o) := Step(cfg, s, e);
      && o.access.sid in t.sessions
      && (o.access.sid in LiveSessionIds(Run(cfg, t, es).sessions, ids)
          <==> o.access.sid in ids && !EndedInRun(cfg, t, es, t.sessions[o.access.sid]))
  {
    TickKeeps(cfg, s, e.elapsed);
    GrantIsLive(cfg, Tick(s, e.elapsed), e.request);
    StepKeeps(cfg, s, e);
    ReportedUntilEnded(cfg, Step(cfg, s, e).0, es, Step(cfg, s, e).1.access.sid, ids);
  }

  /** Right after a sign-in under the policy, of all the sessions its holder ever had only the new one
      is reported, however many are asked about. */
  lemma NewestOnlyIsReported(cfg: Settings, s: Store, ch: ChallengeId, code: Secret, ids: seq<SessionId>,
                             sid: SessionId)
    requires cfg.singleSession && Rooted(cfg, s) && Answers(s, ch, code)
    ensures var (t, o) := VerifyChallenge(cfg, s, ch, code);
      && o.Granted?
      && (sid in LiveSessionIds(t.sessions, ids)
          && sid in t.sessions && t.sessions[sid].credential == s.challenges[ch].credential
          <==> sid in ids && sid == o.access.sid)
  {
    var (t, o) := VerifyChallenge(cfg, s, ch, code);
    SingleSession.NewestWins(cfg, s, ch, code);
    AnswersInOrder(t.sessions, ids);
    assert sid in SingleSession.Live(t, s.challenges[ch].credential) <==> sid == o.access.sid;
  }

  /** A `sid` that was never issued is dead. */
  lemma UnknownIsNeverReported(sessions: SessionTable, ids: seq<SessionId>, sid: SessionId)
    requires sid !in sessions
    ensures sid !in LiveSessionIds(sessions, ids)
  {
    AnswersInOrder(sessions, ids);
  }
}
