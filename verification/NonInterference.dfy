/** A request that acts for one credential leaves every other credential's rows as they were.

    Revocation goes by family id alone (services.py:702-707), so this rests on the invariant that
    a family and its session have one holder. */
module NonInterference {
  import opened Options
  import opened Settings
  import opened Tables
  import opened Sessions
  import opened SignIn
  import opened Accounts
  import opened Machine
  import opened Invariants
  import opened Shapes

  /** Everything the tables hold for one credential. */
  datatype Holdings = Holdings(
    row: Option<Credential>,
    challenges: ChallengeTable,
    sessions: SessionTable,
    tokens: TokenTable,
    resets: ResetTable)

  ghost function HoldingsOf(s: Store, d: CredentialId): Holdings {
    Holdings(
      if d in s.credentials then Some(s.credentials[d]) else None,
      map x | x in s.challenges && s.challenges[x].credential == d :: s.challenges[x],
      map x | x in s.sessions && s.sessions[x].credential == d :: s.sessions[x],
      map x | x in s.tokens && s.tokens[x].credential == d :: s.tokens[x],
      map x | x in s.resets && s.resets[x].credential == d :: s.resets[x])
  }

  /** The credential a request acts for. */
  ghost function Actor(s: Store, r: Request): Option<CredentialId> {
    match r
    case DoLogin(c, _, _, _, _) => Some(c)
    case DoVerify(ch, _) => if ch in s.challenges then Some(s.challenges[ch].credential) else None
    case DoResend(ch, _, _) => if ch in s.challenges then Some(s.challenges[ch].credential) else None
    case DoRefresh(raw) => if raw in s.tokens then Some(s.tokens[raw].credential) else None
    case DoLogout(raw) => if raw in s.tokens then Some(s.tokens[raw].credential) else None
    case DoLogoutAll(raw) => if raw in s.tokens then Some(s.tokens[raw].credential) else None
    case DoRequestReset(c) => Some(c)
    case DoConfirmReset(raw, _) => if raw in s.resets then Some(s.resets[raw].credential) else None
    case DoGoogleCallback(_, answer, _, _) => if answer.Identity? then Some(answer.credential) else None
    case DoDisable(c) => Some(c)
    case DoSignUp(_) => None
    case DoGoogleStart => None
    case DoPurgeStates => None
  }

  lemma RevokeFamilySpares(s: Store, raw: Secret, d: CredentialId)
    requires Agreeing(s) && raw in s.tokens && s.tokens[raw].credential != d
    ensures HoldingsOf(s.(tokens := RevokeFamily(s.tokens, s.tokens[raw].family)), d) == HoldingsOf(s, d)
  {
    forall r | r in s.tokens && s.tokens[r].family == s.tokens[raw].family ensures s.tokens[r].credential != d {
      assert SameFamily(s.tokens, r, raw);
    }
  }

  lemma RevokeTokensSpares(s: Store, c: CredentialId, d: CredentialId)
    requires c != d
    ensures HoldingsOf(s.(tokens := RevokeTokensOf(s.tokens, c)), d) == HoldingsOf(s, d)
  {
  }

  lemma LiveFamilyHolder(s: Store, c: CredentialId, r: Secret)
    requires SessionsAgree(s) && r in s.tokens && BacksLiveSession(s.sessions, c, s.tokens[r].family)
    ensures s.tokens[r].credential == c
  {
    var sid :| sid in s.sessions && LiveFor(s.sessions[sid], c) && s.sessions[sid].family == Some(s.tokens[r].family);
    assert TiedTo(s, sid, r);
  }

  lemma SameRows(s: Store, t: Store, d: CredentialId)
    requires t == s.(next := t.next, sessions := t.sessions, tokens := t.tokens)
    requires s.tokens.Keys <= t.tokens.Keys && s.sessions.Keys <= t.sessions.Keys
    requires forall r | r in t.tokens ::
      if r in s.tokens then
        && t.tokens[r].credential == s.tokens[r].credential
        && (s.tokens[r].credential == d ==> t.tokens[r] == s.tokens[r])
      else t.tokens[r].credential != d
    requires forall x | x in t.sessions ::
      if x in s.sessions then
        && t.sessions[x].credential == s.sessions[x].credential
        && (s.sessions[x].credential == d ==> t.sessions[x] == s.sessions[x])
      else t.sessions[x].credential != d
    ensures HoldingsOf(t, d) == HoldingsOf(s, d)
  {
  }

  lemma RevokeSessionsSpares(s: Store, c: CredentialId, reason: EndedBy, d: CredentialId)
    requires SessionsAgree(s) && c != d
    ensures HoldingsOf(RevokeSessions(s, c, reason), d) == HoldingsOf(s, d)
  {
    forall r | r in s.tokens && BacksLiveSession(s.sessions, c, s.tokens[r].family)
      ensures s.tokens[r].credential == c
    {
      LiveFamilyHolder(s, c, r);
    }
    SameRows(s, RevokeSessions(s, c, reason), d);
  }

  lemma RevokeAllSpares(cfg: Settings, s: Store, c: CredentialId, reason: EndedBy, d: CredentialId)
    requires Linked(cfg, s) && c != d
    ensures HoldingsOf(RevokeAll(s, c, reason), d) == HoldingsOf(s, d)
  {
    RevokeTokensKeeps(cfg, s, c);
    RevokeTokensSpares(s, c, d);
    RevokeSessionsSpares(s.(tokens := RevokeTokensOf(s.tokens, c)), c, reason, d);
  }

  lemma CredentialUpdateSpares(s: Store, c: CredentialId, row: Credential, d: CredentialId)
    requires c != d
    ensures HoldingsOf(s.(credentials := s.credentials[c := row]), d) == HoldingsOf(s, d)
  {
  }

  lemma StartChallengeSpares(cfg: Settings, s: Store, c: CredentialId, audience: string,
                             code: Secret, delivered: bool, d: CredentialId)
    requires c != d && s.next !in s.challenges
    ensures HoldingsOf(StartChallenge(cfg, s, c, audience, code, delivered).0, d) == HoldingsOf(s, d)
  {
    var t := StartChallenge(cfg, s, c, audience, code, delivered).0;
    assert HoldingsOf(t, d).challenges == HoldingsOf(s, d).challenges;
  }

  lemma LoginSpares(cfg: Settings, s: Store, r: Request, d: CredentialId)
    requires Rooted(cfg, s) && r.DoLogin? && r.credential != d
    ensures HoldingsOf(Handle(cfg, s, r).0, d) == HoldingsOf(s, d)
  {
    var c := r.credential;
    var (s1, o) := Authenticate(cfg, s, c, r.password);
    if c in s.credentials {
      CredentialUpdateSpares(s, c, CountFailure(cfg, s.credentials[c], s.now), d);
      CredentialUpdateSpares(s, c, ClearFailures(s.credentials[c]), d);
    }
    if !o.Refused? {
      StartChallengeSpares(cfg, s1, c, r.audience, r.code, r.delivered, d);
    }
  }

  lemma AcceptedSpares(s: Store, ch: ChallengeId, d: CredentialId)
    requires ch in s.challenges && s.challenges[ch].credential in s.credentials && s.challenges[ch].credential != d
    ensures HoldingsOf(Accepted(s, ch), d) == HoldingsOf(s, d)
  {
  }

  lemma ClearedSpares(cfg: Settings, s: Store, ch: ChallengeId, d: CredentialId)
    requires Linked(cfg, s) && ch in s.challenges && s.challenges[ch].credential != d
    ensures HoldingsOf(Cleared(cfg, s, ch), d) == HoldingsOf(s, d)
  {
    AcceptedSpares(s, ch, d);
    AcceptedRoots(cfg, s, ch);
    SameHoldingsKeep(cfg, s, Accepted(s, ch));
    RevokeSessionsSpares(Accepted(s, ch), s.challenges[ch].credential, Superseded, d);
  }

  lemma SignInGrowthSpares(cfg: Settings, s: Store, ch: ChallengeId, d: CredentialId)
    requires Drawn(s) && ch in s.challenges && s.challenges[ch].credential in s.credentials
    requires s.challenges[ch].credential != d
    ensures HoldingsOf(SignedIn(cfg, s, ch), d) == HoldingsOf(Cleared(cfg, s, ch), d)
  {
    ClearedOnlyRevokes(cfg, s, ch);
    SameRows(Cleared(cfg, s, ch), SignedIn(cfg, s, ch), d);
  }

  lemma SignInSpares(cfg: Settings, s: Store, ch: ChallengeId, d: CredentialId)
    requires Linked(cfg, s) && ch in s.challenges && s.challenges[ch].credential != d
    ensures HoldingsOf(SignedIn(cfg, s, ch), d) == HoldingsOf(s, d)
  {
    ClearedSpares(cfg, s, ch, d);
    SignInGrowthSpares(cfg, s, ch, d);
  }

  lemma VerifySpares(cfg: Settings, s: Store, r: Request, d: CredentialId)
    requires Linked(cfg, s) && r.DoVerify? && Actor(s, r) != Some(d)
    ensures HoldingsOf(Handle(cfg, s, r).0, d) == HoldingsOf(s, d)
  {
    if SignsIn(s, r) {
      SignInShape(cfg, s, r.challenge, r.code);
      SignInSpares(cfg, s, r.challenge, d);
    } else {
      VerifyAnswers(cfg, s, r.challenge, r.code);
    }
  }

  lemma WonRotationSpares(cfg: Settings, s: Store, raw: Secret, d: CredentialId)
    requires Drawn(s) && Wins(s, raw) && s.tokens[raw].credential != d
    ensures HoldingsOf(RotateRefresh(cfg, s, raw).0, d) == HoldingsOf(s, d)
  {
    RotateShape(cfg, s, raw);
    SameRows(s, RotateRefresh(cfg, s, raw).0, d);
  }

  lemma RotateSpares(cfg: Settings, s: Store, r: Request, d: CredentialId)
    requires Linked(cfg, s) && r.DoRefresh? && Actor(s, r) != Some(d)
    ensures HoldingsOf(Handle(cfg, s, r).0, d) == HoldingsOf(s, d)
  {
    if Wins(s, r.raw) {
      WonRotationSpares(cfg, s, r.raw, d);
    } else if r.raw in s.tokens {
      RevokeFamilySpares(s, r.raw, d);
    }
  }

  lemma LogoutSpares(cfg: Settings, s: Store, r: Request, d: CredentialId)
    requires Linked(cfg, s) && r.DoLogout? && Actor(s, r) != Some(d)
    ensures HoldingsOf(Handle(cfg, s, r).0, d) == HoldingsOf(s, d)
  {
    var raw := r.raw;
    if raw in s.tokens {
      RevokeFamilySpares(s, raw, d);
      var session := SessionOfFamily(s.sessions, s.tokens[raw].family);
      if session.Some? {
        assert TiedTo(s, session.value, raw);
      }
      var t := Handle(cfg, s, r).0;
      assert HoldingsOf(t, d).sessions == HoldingsOf(s, d).sessions;
    }
  }

  lemma RepasswordedSpares(s: Store, raw: Secret, password: Secret, d: CredentialId)
    requires ResetUsable(s, raw) && s.resets[raw].credential != d
    ensures HoldingsOf(Repassworded(s, raw, password), d) == HoldingsOf(s, d)
  {
  }

  lemma ConfirmSpares(cfg: Settings, s: Store, r: Request, d: CredentialId)
    requires Linked(cfg, s) && r.DoConfirmReset? && Actor(s, r) != Some(d)
    ensures HoldingsOf(Handle(cfg, s, r).0, d) == HoldingsOf(s, d)
  {
    if ResetUsable(s, r.raw) {
      var s1 := Repassworded(s, r.raw, r.newPassword);
      RepasswordedRoots(cfg, s, r.raw, r.newPassword);
      RepasswordedSpares(s, r.raw, r.newPassword, d);
      SameHoldingsKeep(cfg, s, s1);
      RevokeAllSpares(cfg, s1, s.resets[r.raw].credential, ByPasswordReset, d);
    }
  }

  lemma DisableSpares(cfg: Settings, s: Store, r: Request, d: CredentialId)
    requires Linked(cfg, s) && r.DoDisable? && Actor(s, r) != Some(d)
    ensures HoldingsOf(Handle(cfg, s, r).0, d) == HoldingsOf(s, d)
  {
    var c := r.credential;
    if c in s.credentials {
      RevokeAllSpares(cfg, s, c, ByDisabling, d);
      CredentialUpdateSpares(RevokeAll(s, c, ByDisabling), c, s.credentials[c].(disabled := true), d);
      assert Handle(cfg, s, r).0 == RevokeAll(s, c, ByDisabling).(credentials := Handle(cfg, s, r).0.credentials);
    }
  }

  lemma ConsumeSpares(s: Store, state: Option<Secret>, d: CredentialId)
    ensures HoldingsOf(ConsumeState(s, state).0, d) == HoldingsOf(s, d)
  {
  }

  lemma UpsertSpares(s: Store, id: CredentialId, d: CredentialId)
    requires d in s.credentials && s.next !in s.credentials && id != d
    ensures var (t, x) := UpsertGoogle(s, id);
      HoldingsOf(t, d) == HoldingsOf(s, d) && x != d
  {
  }

  lemma GoogleSpares(cfg: Settings, s: Store, r: Request, d: CredentialId)
    requires Rooted(cfg, s) && r.DoGoogleCallback? && Actor(s, r) != Some(d) && d in s.credentials
    ensures HoldingsOf(Handle(cfg, s, r).0, d) == HoldingsOf(s, d)
  {
    var (s1, o) := ConsumeState(s, r.state);
    ConsumeSpares(s, r.state, d);
    if !o.Refused? && r.answer.Identity? {
      var (s2, id) := UpsertGoogle(s1, r.answer.credential);
      ConsumeRoots(cfg, s, r.state);
      UpsertRoots(cfg, s1, r.answer.credential);
      UpsertSpares(s1, r.answer.credential, d);
      StartChallengeSpares(cfg, s2, id, cfg.defaultAudience, r.code, r.delivered, d);
    }
  }

  lemma ResendSpares(cfg: Settings, s: Store, r: Request, d: CredentialId)
    requires r.DoResend? && Actor(s, r) != Some(d)
    ensures HoldingsOf(Handle(cfg, s, r).0, d) == HoldingsOf(s, d)
  {
  }

  lemma InsertSpares(cfg: Settings, s: Store, r: Request, d: CredentialId)
    requires Rooted(cfg, s) && Actor(s, r) != Some(d) && d in s.credentials
    requires r.DoSignUp? || r.DoRequestReset? || r.DoGoogleStart? || r.DoPurgeStates?
    ensures HoldingsOf(Handle(cfg, s, r).0, d) == HoldingsOf(s, d)
  {
  }

  /** Whatever a request does for its own credential, it does nothing to another's counter and
      lock, challenges, sessions, refresh tokens and reset tokens. */
  lemma OthersUntouched(cfg: Settings, s: Store, e: Event, d: CredentialId)
    requires Linked(cfg, s) && d in s.credentials
    requires Actor(s, e.request) != Some(d)
    ensures HoldingsOf(Step(cfg, s, e).0, d) == HoldingsOf(s, d)
  {
    var s1, r := Tick(s, e.elapsed), e.request;
    TickKeeps(cfg, s, e.elapsed);
    assert HoldingsOf(s1, d) == HoldingsOf(s, d);
    match r {
      case DoLogin(_, _, _, _, _) => LoginSpares(cfg, s1, r, d);
      case DoVerify(_, _) => VerifySpares(cfg, s1, r, d);
      case DoRefresh(_) => RotateSpares(cfg, s1, r, d);
      case DoLogout(_) => LogoutSpares(cfg, s1, r, d);
      case DoLogoutAll(raw) =>
        if raw in s1.tokens {
          RevokeAllSpares(cfg, s1, s1.tokens[raw].credential, LoggedOutEverywhere, d);
        }
      case DoConfirmReset(_, _) => ConfirmSpares(cfg, s1, r, d);
      case DoDisable(_) => DisableSpares(cfg, s1, r, d);
      case DoGoogleCallback(_, _, _, _) => GoogleSpares(cfg, s1, r, d);
      case DoResend(_, _, _) => ResendSpares(cfg, s1, r, d);
      case _ => InsertSpares(cfg, s1, r, d);
    }
  }

  /** Over a whole run in which nobody acts for `d`, nothing of `d` moves. */
  lemma {:induction false} OthersUntouchedRun(cfg: Settings, s: Store, es: seq<Event>, d: CredentialId)
    requires Linked(cfg, s) && d in s.credentials
    requires forall i | 0 <= i < |es| :: Actor(At(cfg, s, es, i), es[i].request) != Some(d)
    ensures HoldingsOf(Run(cfg, s, es), d) == HoldingsOf(s, d)
    decreases |es|
  {
    if es != [] {
      var t := Step(cfg, s, es[0]).0;
      assert Actor(At(cfg, s, es, 0), es[0].request) == Actor(s, es[0].request);
      OthersUntouched(cfg, s, es[0], d);
      assert HoldingsOf(t, d).row.Some?;
      StepKeeps(cfg, s, es[0]);
      forall i | 0 <= i < |es[1..]| ensures Actor(At(cfg, t, es[1..], i), es[1..][i].request) != Some(d) {
        AtShift(cfg, s, es, i);
        assert Actor(At(cfg, s, es, i + 1), es[i + 1].request) != Some(d);
      }
      OthersUntouchedRun(cfg, t, es[1..], d);
    }
  }
}
