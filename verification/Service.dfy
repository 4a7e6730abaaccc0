/** The handlers of services.py over tables they update in place, each proved against the function
    that specifies it, with the invariant kept by every request. */
module Service {
  import opened Options
  import opened Settings
  import opened Tables
  import opened Machine
  import Accounts
  import Introspection
  import Invariants
  import Sessions
  import SignIn

  class AuthService {
    const cfg: Settings
    var now: int
    var next: nat
    var credentials: CredentialTable
    var challenges: ChallengeTable
    var sessions: SessionTable
    var tokens: TokenTable
    var resets: ResetTable
    var states: StateTable

    constructor (cfg: Settings)
      ensures this.cfg == cfg && Snapshot() == EMPTY && Valid()
    {
      this.cfg := cfg;
      now, next := 0, 0;
      credentials, challenges, sessions, tokens, resets, states := map[], map[], map[], map[], map[], map[];
      new;
      Invariants.EmptyIsLinked(cfg);
    }

    ghost function Snapshot(): Store
      reads this
    {
      Store(now, next, credentials, challenges, sessions, tokens, resets, states)
    }

    ghost predicate Valid()
      reads this
    {
      Invariants.Linked(cfg, Snapshot())
    }

    /** A fresh identifier or secret. */
    method Draw() returns (x: nat)
      modifies this`next
      ensures x == old(next) && next == x + 1
    {
      x := next;
      next := next + 1;
    }

    // --- Sessions and refresh tokens ------------------------------------------

    /** `_revoke_family` */
    method RevokeFamily(f: FamilyId)
      modifies this`tokens
      ensures tokens == Sessions.RevokeFamily(old(tokens), f)
    {
      var todo := set raw | raw in tokens && tokens[raw].family == f;
      while todo != {}
        invariant todo <= tokens.Keys && tokens.Keys == old(tokens).Keys
        invariant forall raw | raw in tokens ::
          if raw in todo || old(tokens)[raw].family != f then tokens[raw] == old(tokens)[raw]
          else tokens[raw] == old(tokens)[raw].(revoked := true)
        invariant forall raw | raw in todo :: old(tokens)[raw].family == f
        decreases |todo|
      {
        var raw :| raw in todo;
        tokens := tokens[raw := tokens[raw].(revoked := true)];
        todo := todo - {raw};
      }
    }

    /** One session's turn in `revoke_sessions_for_credential`: the row, then its family. */
    method EndSession(sid: SessionId, reason: EndedBy)
      requires sid in sessions
      modifies this`sessions, this`tokens
      ensures sessions == old(sessions)[sid := Sessions.Ended(old(sessions)[sid], reason, now)]
      ensures tokens == if old(sessions)[sid].family.Some?
                        then Sessions.RevokeFamily(old(tokens), old(sessions)[sid].family.value) else old(tokens)
    {
      sessions := sessions[sid := sessions[sid].(revoked := true, reason := Some(reason), revokedAt := Some(now))];
      if sessions[sid].family.Some? {
        RevokeFamily(sessions[sid].family.value);
      }
    }

    /** `revoke_sessions_for_credential`; answers the sessions it ended. */
    method RevokeSessionsForCredential(c: CredentialId, reason: EndedBy) returns (ended: set<SessionId>)
      modifies this`sessions, this`tokens
      ensures Snapshot() == Sessions.RevokeSessions(old(Snapshot()), c, reason)
      ensures ended == LiveSessionsOf(old(sessions), c)
    {
      ended := set sid | sid in sessions && !sessions[sid].revoked && sessions[sid].credential == c;
      assert ended == LiveSessionsOf(sessions, c);
      AllEnded(sessions, tokens, c, reason, now);
      EndEach(ended, reason);
    }

    /** The loop of `revoke_sessions_for_credential`. */
    method EndEach(ended: set<SessionId>, reason: EndedBy)
      requires ended <= sessions.Keys
      modifies this`sessions, this`tokens
      ensures sessions == EndedSome(old(sessions), ended, reason, now)
      ensures tokens == RevokedSome(old(tokens), old(sessions), ended)
    {
      var todo := ended;
      ghost var done := {};
      NoneEnded(sessions, tokens, reason, now);
      while todo != {}
        invariant done + todo == ended && done !! todo
        invariant sessions == EndedSome(old(sessions), done, reason, now)
        invariant tokens == RevokedSome(old(tokens), old(sessions), done)
        decreases |todo|
      {
        var sid :| sid in todo;
        EndedOneMore(old(sessions), old(tokens), done, sid, reason, now);
        EndSession(sid, reason);
        todo, done := todo - {sid}, done + {sid};
      }
    }

    /** `revoke_all_for_credential` */
    method RevokeAllForCredential(c: CredentialId, reason: EndedBy)
      modifies this`sessions, this`tokens
      ensures Snapshot() == Sessions.RevokeAll(old(Snapshot()), c, reason)
    {
      RevokeTokensOf(c);
      var _ := RevokeSessionsForCredential(c, reason);
    }

    /** The first loop of `revoke_all_for_credential`. */
    method RevokeTokensOf(c: CredentialId)
      modifies this`tokens
      ensures tokens == Sessions.RevokeTokensOf(old(tokens), c)
    {
      var todo := set raw | raw in tokens && tokens[raw].credential == c;
      while todo != {}
        invariant todo <= tokens.Keys && tokens.Keys == old(tokens).Keys
        invariant forall raw | raw in tokens ::
          if raw in todo || old(tokens)[raw].credential != c then tokens[raw] == old(tokens)[raw]
          else tokens[raw] == old(tokens)[raw].(revoked := true)
        invariant forall raw | raw in todo :: old(tokens)[raw].credential == c
        decreases |todo|
      {
        var raw :| raw in todo;
        tokens := tokens[raw := tokens[raw].(revoked := true)];
        todo := todo - {raw};
      }
    }

    /** `_get_session_by_family` */
    method GetSessionByFamily(f: FamilyId) returns (session: Option<SessionId>)
      requires Invariants.OneSessionPerFamily(sessions)
      ensures session == Sessions.SessionOfFamily(sessions, f)
    {
      var found := set sid | sid in sessions && sessions[sid].family == Some(f);
      if found == {} {
        session := None;
        assert forall sid | sid in sessions :: sid !in found;
      } else {
        var sid :| sid in found;
        session := Some(sid);
        Invariants.SessionOfFamilyFinds(sessions, f, sid);
      }
    }

    /** `_start_session` */
    method StartSession(c: CredentialId, audience: string, supersede: bool) returns (sid: SessionId)
      modifies this`sessions, this`tokens, this`next
      ensures (Snapshot(), sid) == Sessions.StartSession(cfg, old(Snapshot()), c, audience, supersede)
    {
      if supersede && cfg.singleSession {
        var _ := RevokeSessionsForCredential(c, Superseded);
      }
      sid := Draw();
      sessions := sessions[sid := Session(c, audience, None, false, None, None)];
    }

    /** `issue_tokens` */
    method IssueTokens(c: CredentialId, requested: string, family: Option<FamilyId>, session: Option<SessionId>,
                       supersede: bool)
      returns (o: Outcome)
      modifies this`sessions, this`tokens, this`next
      ensures (Snapshot(), o) == Sessions.IssueTokens(cfg, old(Snapshot()), c, requested, family, session, supersede)
    {
      var audience := cfg.ResolveAudience(requested);
      var sid: SessionId;
      if session.None? {
        sid := StartSession(c, audience, supersede);
      } else {
        sid := session.value;
      }
      o := AddToken(c, audience, family, sid);
    }

    /** The tail of `issue_tokens`. */
    method AddToken(c: CredentialId, audience: string, family: Option<FamilyId>, sid: SessionId) returns (o: Outcome)
      modifies this`sessions, this`tokens, this`next
      ensures (Snapshot(), o) == Sessions.AddToken(cfg, old(Snapshot()), c, audience, family, sid)
    {
      var raw := Draw();
      var newFamily := Draw();
      var f := if family.Some? then family.value else newFamily;
      tokens := tokens[raw := RefreshToken(c, f, audience, now + cfg.refreshTokenTtl, false, false)];
      if sid in sessions && sessions[sid].family.None? {
        sessions := sessions[sid := sessions[sid].(family := Some(f))];
      }
      o := Granted(AccessToken(c, audience, sid), raw);
    }

    /** The first transaction of `rotate_refresh`: the claim is written first and rolled back by
        every refusal after it. */
    method ClaimToken(raw: Secret) returns (claim: Sessions.Claim)
      requires Invariants.OneSessionPerFamily(sessions)
      modifies this`tokens
      ensures (Snapshot(), claim) == Sessions.ClaimToken(old(Snapshot()), raw)
    {
      var committed := tokens;
      var won := raw in tokens && !tokens[raw].rotated && !tokens[raw].revoked;
      if won {
        tokens := tokens[raw := tokens[raw].(rotated := true)];
      }
      if raw !in tokens {
        tokens := committed;
        return Sessions.NotClaimed(InvalidRefresh(UnknownToken));
      }
      var token := tokens[raw];
      if !won {
        RevokeFamily(token.family);
        return Sessions.NotClaimed(InvalidRefresh(ReuseDetected));
      }
      if token.expiresAt < now {
        tokens := committed;
        return Sessions.NotClaimed(InvalidRefresh(TokenExpired));
      }
      if token.credential !in credentials || credentials[token.credential].disabled {
        tokens := committed;
        return Sessions.NotClaimed(AccountDisabled);
      }
      var session := GetSessionByFamily(token.family);
      if session.Some? && sessions[session.value].revoked {
        tokens := committed;
        return Sessions.NotClaimed(InvalidRefresh(SessionEnded));
      }
      claim := Sessions.Claimed(raw, token.credential, token.audience, token.family, session);
    }

    /** `rotate_refresh` */
    method RotateRefresh(raw: Secret) returns (o: Outcome)
      requires Valid()
      modifies this`sessions, this`tokens, this`next
      ensures (Snapshot(), o) == Sessions.RotateRefresh(cfg, old(Snapshot()), raw)
    {
      var claim := ClaimToken(raw);
      if claim.NotClaimed? {
        return Refused(claim.error);
      }
      o := IssueTokens(claim.credential, claim.audience, Some(claim.family), claim.session, false);
    }

    /** `revoke_by_raw` */
    method RevokeByRaw(raw: Secret) returns (o: Outcome)
      requires Valid()
      modifies this`sessions, this`tokens
      ensures (Snapshot(), o) == Sessions.Logout(old(Snapshot()), raw)
    {
      if raw in tokens {
        var f := tokens[raw].family;
        RevokeFamily(f);
        var session := GetSessionByFamily(f);
        if session.Some? && !sessions[session.value].revoked {
          sessions := sessions[session.value :=
            sessions[session.value].(revoked := true, reason := Some(LoggedOut), revokedAt := Some(now))];
        }
      }
      o := Done;
    }

    /** `revoke_all_by_raw` */
    method RevokeAllByRaw(raw: Secret) returns (o: Outcome)
      modifies this`sessions, this`tokens
      ensures (Snapshot(), o) == Sessions.LogoutAll(old(Snapshot()), raw)
    {
      if raw in tokens && tokens[raw].credential in credentials {
        RevokeAllForCredential(tokens[raw].credential, LoggedOutEverywhere);
      }
      o := Done;
    }

    // --- Passwords and codes --------------------------------------------------

    /** `authenticate` */
    method Authenticate(id: CredentialId, password: Secret) returns (o: Outcome)
      modifies this`credentials
      ensures (Snapshot(), o) == SignIn.Authenticate(cfg, old(Snapshot()), id, password)
    {
      if id !in credentials {
        return Refused(InvalidCredentials);
      }
      var c := credentials[id];
      if Locked(c, now) {
        return Refused(AccountLocked);
      }
      var passwordOk := c.password == Some(password);
      if c.disabled {
        return Refused(if passwordOk then AccountDisabled else InvalidCredentials);
      }
      if !passwordOk {
        CountFailure(id);
        return Refused(InvalidCredentials);
      }
      credentials := credentials[id := c.(failedAttempts := 0, lockedUntil := None)];
      o := Done;
    }

    /** The counting shared by a wrong password and a wrong code. */
    method CountFailure(id: CredentialId)
      requires id in credentials
      modifies this`credentials
      ensures credentials == old(credentials)[id := SignIn.CountFailure(cfg, old(credentials)[id], now)]
    {
      var c := credentials[id];
      c := c.(failedAttempts := c.failedAttempts + 1);
      if c.failedAttempts >= cfg.maxFailedLogins {
        c := c.(lockedUntil := Some(now + cfg.loginLockout));
        c := c.(failedAttempts := 0);
      }
      credentials := credentials[id := c];
    }

    /** `_supersede_challenges` */
    method SupersedeChallenges(id: CredentialId)
      modifies this`challenges
      ensures challenges == SignIn.SupersedeChallenges(old(challenges), id)
    {
      var todo := set ch | ch in challenges && challenges[ch].credential == id && !challenges[ch].consumed;
      while todo != {}
        invariant todo <= challenges.Keys && challenges.Keys == old(challenges).Keys
        invariant forall ch | ch in todo :: old(challenges)[ch].credential == id && !old(challenges)[ch].consumed
        invariant forall ch | ch in challenges ::
          if old(challenges)[ch].credential == id && !old(challenges)[ch].consumed && ch !in todo
          then challenges[ch] == old(challenges)[ch].(consumed := true)
          else challenges[ch] == old(challenges)[ch]
        decreases |todo|
      {
        var ch :| ch in todo;
        challenges := challenges[ch := challenges[ch].(consumed := true)];
        todo := todo - {ch};
      }
    }

    /** `start_challenge`; whether the mail is delivered is decided outside. */
    method StartChallenge(id: CredentialId, audience: string, code: Secret, delivered: bool) returns (o: Outcome)
      modifies this`challenges, this`next
      ensures (Snapshot(), o) == SignIn.StartChallenge(cfg, old(Snapshot()), id, audience, code, delivered)
    {
      SupersedeChallenges(id);
      var ch := Draw();
      ghost var superseded := challenges;
      challenges := challenges[ch := Challenge(id, code, cfg.ResolveAudience(audience), now + cfg.otpTtl,
                                               0, 1, now, false, now)];
      if !delivered {
        challenges := challenges[ch := challenges[ch].(consumed := true)];
        assert challenges == superseded[ch := challenges[ch]];
        return Refused(MailDeliveryFailed);
      }
      o := ChallengeSent(ch);
    }

    method Login(id: CredentialId, password: Secret, audience: string, code: Secret, delivered: bool)
      returns (o: Outcome)
      modifies this`credentials, this`challenges, this`next
      ensures (Snapshot(), o) == SignIn.Login(cfg, old(Snapshot()), id, password, audience, code, delivered)
    {
      o := Authenticate(id, password);
      if !o.Refused? {
        o := StartChallenge(id, audience, code, delivered);
      }
    }

    /** `resend_challenge` */
    method ResendChallenge(ch: ChallengeId, code: Secret, delivered: bool) returns (o: Outcome)
      modifies this`challenges
      ensures (Snapshot(), o) == SignIn.ResendChallenge(cfg, old(Snapshot()), ch, code, delivered)
    {
      if ch !in challenges || challenges[ch].consumed {
        return Refused(InvalidChallenge);
      }
      var x := challenges[ch];
      if now - x.createdAt > cfg.otpChallengeMaxAge {
        return Refused(InvalidChallenge);
      }
      if now - x.lastSentAt < cfg.otpResendCooldown || x.sends >= cfg.otpMaxSends {
        return Refused(ResendTooSoon);
      }
      if x.credential !in credentials || credentials[x.credential].disabled {
        return Refused(AccountDisabled);
      }
      challenges := challenges[ch := x.(code := code, expiresAt := now + cfg.otpTtl, attempts := 0,
                                        sends := x.sends + 1, lastSentAt := now)];
      o := if delivered then ChallengeSent(ch) else Refused(MailDeliveryFailed);
    }

    /** `verify_challenge` */
    method VerifyChallenge(ch: ChallengeId, code: Secret) returns (o: Outcome)
      modifies this`credentials, this`challenges, this`sessions, this`tokens, this`next
      ensures (Snapshot(), o) == SignIn.VerifyChallenge(cfg, old(Snapshot()), ch, code)
    {
      if ch !in challenges || challenges[ch].consumed || challenges[ch].expiresAt < now {
        return Refused(InvalidChallenge);
      }
      var x := challenges[ch];
      if x.credential !in credentials {
        return Refused(InvalidChallenge);
      }
      var c := credentials[x.credential];
      if c.disabled {
        return Refused(AccountDisabled);
      }
      if Locked(c, now) {
        return Refused(AccountLocked);
      }
      if code != x.code {
        var burnt := c.failedAttempts + 1 >= cfg.maxFailedLogins || x.attempts + 1 >= cfg.otpMaxAttempts;
        challenges := challenges[ch := x.(attempts := x.attempts + 1, consumed := burnt)];
        CountFailure(x.credential);
        return Refused(InvalidChallenge);
      }
      challenges := challenges[ch := x.(consumed := true)];
      credentials := credentials[x.credential := c.(failedAttempts := 0, lockedUntil := None)];
      o := IssueTokens(x.credential, x.audience, None, None, true);
    }

    // --- Accounts -------------------------------------------------------------

    method AddCredential(password: Option<Secret>) returns (id: CredentialId)
      modifies this`credentials, this`next
      ensures (Snapshot(), id) == Accounts.AddCredential(old(Snapshot()), password)
    {
      id := Draw();
      credentials := credentials[id := Credential(password, 0, None, false)];
    }

    /** `request_password_reset` */
    method RequestPasswordReset(id: CredentialId) returns (o: Outcome)
      modifies this`resets, this`next
      ensures (Snapshot(), o) == Accounts.RequestReset(cfg, old(Snapshot()), id)
    {
      if id !in credentials {
        return Done;
      }
      var raw := Draw();
      resets := resets[raw := ResetToken(id, now + cfg.resetTokenTtl, false)];
      o := Issued(raw);
    }

    /** `confirm_password_reset` */
    method ConfirmPasswordReset(raw: Secret, password: Secret) returns (o: Outcome)
      modifies this`credentials, this`resets, this`sessions, this`tokens
      ensures (Snapshot(), o) == Accounts.ConfirmReset(old(Snapshot()), raw, password)
    {
      if raw !in resets || resets[raw].used || resets[raw].expiresAt < now || resets[raw].credential !in credentials {
        return Refused(InvalidResetToken);
      }
      var id := resets[raw].credential;
      credentials := credentials[id := credentials[id].(password := Some(password), failedAttempts := 0,
                                                        lockedUntil := None)];
      resets := resets[raw := resets[raw].(used := true)];
      RevokeAllForCredential(id, ByPasswordReset);
      o := Done;
    }

    /** `disable_credential` */
    method DisableCredential(id: CredentialId) returns (o: Outcome)
      modifies this`credentials, this`sessions, this`tokens
      ensures (Snapshot(), o) == Accounts.Disable(old(Snapshot()), id)
    {
      if id !in credentials {
        return Refused(NotFound);
      }
      credentials := credentials[id := credentials[id].(disabled := true)];
      RevokeAllForCredential(id, ByDisabling);
      o := Done;
    }

    /** `issue_oauth_state` */
    method IssueOAuthState() returns (o: Outcome)
      modifies this`states, this`next
      ensures (Snapshot(), o) == Accounts.IssueState(cfg, old(Snapshot()))
    {
      var raw := Draw();
      states := states[raw := OAuthState(now + cfg.oauthStateTtl, false)];
      o := Issued(raw);
    }

    /** `consume_oauth_state` */
    method ConsumeOAuthState(state: Option<Secret>) returns (o: Outcome)
      modifies this`states
      ensures (Snapshot(), o) == Accounts.ConsumeState(old(Snapshot()), state)
    {
      if state.None? || state.value !in states || states[state.value].consumed || states[state.value].expiresAt <= now {
        return Refused(InvalidOAuthState);
      }
      states := states[state.value := states[state.value].(consumed := true)];
      o := Done;
    }

    /** `purge_expired_oauth_states` */
    method PurgeExpiredOAuthStates() returns (o: Outcome)
      modifies this`states
      ensures (Snapshot(), o) == Accounts.PurgeStates(old(Snapshot()))
    {
      states := states - (set x | x in states && states[x].expiresAt < now);
      assert states == Accounts.PurgeStates(old(Snapshot())).0.states;
      o := Done;
    }

    /** `GET /v1/google/callback` */
    method GoogleCallback(state: Option<Secret>, answer: Accounts.GoogleAnswer, code: Secret, delivered: bool)
      returns (o: Outcome)
      modifies this`states, this`credentials, this`challenges, this`next
      ensures (Snapshot(), o) == Accounts.GoogleCallback(cfg, old(Snapshot()), state, answer, code, delivered)
    {
      o := ConsumeOAuthState(state);
      if o.Refused? {
        return;
      }
      if answer.Rejected? {
        return Refused(GoogleRejected);
      }
      var id := answer.credential;
      if id !in credentials {
        id := AddCredential(None);
      }
      o := StartChallenge(id, cfg.defaultAudience, code, delivered);
    }

    // --- Introspection --------------------------------------------------------

    /** `is_session_live` */
    method IsSessionLive(sid: SessionId) returns (live: bool)
      ensures live == Introspection.IsSessionLive(sessions, sid)
    {
      live := sid in sessions && !sessions[sid].revoked;
    }

    /** `live_session_ids`: one query, then the caller's order. */
    method LiveSessionIds(ids: seq<SessionId>) returns (active: seq<SessionId>)
      ensures active == Introspection.LiveSessionIds(sessions, ids)
    {
      var unique: seq<SessionId> := [];
      for i := 0 to |ids|
        invariant unique == Introspection.FirstOccurrences(ids[..i])
      {
        assert ids[..i + 1][..i] == ids[..i];
        Introspection.FirstOccurrencesInOrder(ids[..i]);
        if ids[i] !in unique {
          unique := unique + [ids[i]];
        }
      }
      assert ids[..|ids|] == ids;
      var live := set sid | sid in sessions && sid in unique && !sessions[sid].revoked;
      active := [];
      for i := 0 to |unique|
        invariant active == Introspection.LiveOf(sessions, unique[..i])
      {
        assert unique[..i + 1][..i] == unique[..i];
        assert unique[i] in unique;
        if unique[i] in live {
          active := active + [unique[i]];
        }
      }
      assert unique[..|unique|] == unique;
    }

    // --- Requests -------------------------------------------------------------

    method Handle(r: Request) returns (o: Outcome)
      requires Valid()
      modifies this
      ensures (Snapshot(), o) == Machine.Handle(cfg, old(Snapshot()), r)
    {
      match r {
        case DoSignUp(password) =>
          var id := AddCredential(Some(password));
          o := Created(id);
        case DoLogin(id, password, audience, code, delivered) => o := Login(id, password, audience, code, delivered);
        case DoVerify(ch, code) => o := VerifyChallenge(ch, code);
        case DoResend(ch, code, delivered) => o := ResendChallenge(ch, code, delivered);
        case DoRefresh(raw) => o := RotateRefresh(raw);
        case DoLogout(raw) => o := RevokeByRaw(raw);
        case DoLogoutAll(raw) => o := RevokeAllByRaw(raw);
        case DoRequestReset(id) => o := RequestPasswordReset(id);
        case DoConfirmReset(raw, password) => o := ConfirmPasswordReset(raw, password);
        case DoGoogleStart => o := IssueOAuthState();
        case DoGoogleCallback(state, answer, code, delivered) => o := GoogleCallback(state, answer, code, delivered);
        case DoPurgeStates => o := PurgeExpiredOAuthStates();
        case DoDisable(id) => o := DisableCredential(id);
      }
    }

    /** One event: the clock moves on, then the request is handled. */
    method Serve(e: Event) returns (o: Outcome)
      requires Valid()
      modifies this
      ensures Valid() && (Snapshot(), o) == Step(cfg, old(Snapshot()), e)
    {
      ghost var s := Snapshot();
      Invariants.TickKeeps(cfg, s, e.elapsed);
      Invariants.StepKeeps(cfg, s, e);
      Advance(e.elapsed);
      o := Handle(e.request);
    }

    method Advance(elapsed: nat)
      modifies this`now
      ensures Snapshot() == Tick(old(Snapshot()), elapsed)
    {
      now := now + elapsed;
    }
  }

  // --- Loops that have got part of the way --------------------------------------

  ghost function LiveSessionsOf(table: SessionTable, c: CredentialId): set<SessionId> {
    set sid | sid in table && Sessions.LiveFor(table[sid], c)
  }

  ghost function EndedSome(table: SessionTable, done: set<SessionId>, reason: EndedBy, now: int): SessionTable {
    map sid | sid in table :: if sid in done then Sessions.Ended(table[sid], reason, now) else table[sid]
  }

  ghost predicate BehindOneOf(table: SessionTable, done: set<SessionId>, f: FamilyId) {
    exists sid :: sid in done && sid in table && table[sid].family == Some(f)
  }

  ghost function RevokedSome(tokens: TokenTable, table: SessionTable, done: set<SessionId>): TokenTable {
    map raw | raw in tokens ::
      if BehindOneOf(table, done, tokens[raw].family) then tokens[raw].(revoked := true) else tokens[raw]
  }

  lemma NoneEnded(table: SessionTable, tokens: TokenTable, reason: EndedBy, now: int)
    ensures EndedSome(table, {}, reason, now) == table && RevokedSome(tokens, table, {}) == tokens
  {
  }

  lemma EndedOneMore(table: SessionTable, tokens: TokenTable, done: set<SessionId>, sid: SessionId, reason: EndedBy,
                     now: int)
    requires sid in table && sid !in done
    ensures var part := EndedSome(table, done, reason, now);
      && sid in part && part[sid] == table[sid]
      && EndedSome(table, done + {sid}, reason, now) == part[sid := Sessions.Ended(table[sid], reason, now)]
    ensures RevokedSome(tokens, table, done + {sid}) ==
      if table[sid].family.Some? then Sessions.RevokeFamily(RevokedSome(tokens, table, done), table[sid].family.value)
      else RevokedSome(tokens, table, done)
  {
    forall f: FamilyId
      ensures BehindOneOf(table, done + {sid}, f) <==> BehindOneOf(table, done, f) || table[sid].family == Some(f)
    {
      if BehindOneOf(table, done, f) {
        var x: SessionId :| x in done && x in table && table[x].family == Some(f);
        assert x in done + {sid};
      } else if table[sid].family == Some(f) {
        assert sid in done + {sid};
      }
    }
  }

  lemma AllEnded(table: SessionTable, tokens: TokenTable, c: CredentialId, reason: EndedBy, now: int)
    ensures EndedSome(table, LiveSessionsOf(table, c), reason, now) == Sessions.EndSessions(table, c, reason, now)
    ensures RevokedSome(tokens, table, LiveSessionsOf(table, c)) == Sessions.RevokeBehind(tokens, table, c)
  {
    forall f: FamilyId
      ensures BehindOneOf(table, LiveSessionsOf(table, c), f) <==> Sessions.BacksLiveSession(table, c, f)
    {
    }
  }
}
