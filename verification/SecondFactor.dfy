/** The second factor: how many wrong codes a challenge survives, which code answers it after a resend,
    when a resend is granted and what it is worth (services.py:322-461). */
module SecondFactor {
  import opened Settings
  import opened Tables
  import opened SignIn
  import opened Accounts
  import opened Machine
  import opened Invariants
  import opened Shapes

  // --- Wrong codes ------------------------------------------------------------

  function Lower(a: int, b: int): int {
    if a <= b then a else b
  }

  /** The wrong codes that use up challenge `ch`: whichever ceiling is nearer. */
  ghost function Left(cfg: Settings, s: Store, ch: ChallengeId): int
    requires ch in s.challenges && s.challenges[ch].credential in s.credentials
  {
    Lower(cfg.maxFailedLogins - s.credentials[s.challenges[ch].credential].failedAttempts,
          cfg.otpMaxAttempts - s.challenges[ch].attempts)
  }

  /** A wrong code leaves the right one good if and only if it reaches neither ceiling. */
  lemma WrongCodeThenRight(cfg: Settings, s: Store, ch: ChallengeId, code: Secret, wrong: Secret)
    requires Answers(s, ch, code) && wrong != code
    ensures var (t, o) := VerifyChallenge(cfg, s, ch, wrong);
      && o == Refused(InvalidChallenge)
      && (Answers(t, ch, code) <==> Left(cfg, s, ch) > 1)
      && (Answers(t, ch, code) ==> Left(cfg, t, ch) == Left(cfg, s, ch) - 1)
      && ch in t.challenges && t.challenges[ch].expiresAt == s.challenges[ch].expiresAt
      && (!Answers(t, ch, code) ==> t.challenges[ch].consumed)
  {
  }

  ghost predicate OnlyWrongCodes(es: seq<Event>, ch: ChallengeId, code: Secret) {
    forall e | e in es :: e.request.DoVerify? && e.request.challenge == ch && e.request.code != code
  }

  lemma {:induction false} ConsumedStaysShut(cfg: Settings, s: Store, es: seq<Event>, ch: ChallengeId, code: Secret)
    requires ch in s.challenges && s.challenges[ch].consumed && OnlyWrongCodes(es, ch, code)
    ensures ch in Run(cfg, s, es).challenges && Run(cfg, s, es).challenges[ch].consumed
    decreases |es|
  {
    if es != [] {
      assert es[0] in es;
      assert Step(cfg, s, es[0]).0 == Tick(s, es[0].elapsed);
      assert forall e | e in es[1..] :: e in es;
      ConsumedStaysShut(cfg, Step(cfg, s, es[0]).0, es[1..], ch, code);
    }
  }

  /** Within the life of the code, the right one is accepted after n wrong ones if and only if n is
      below both what is left of the credential's ceiling and what is left of the challenge's. */
  lemma {:induction false} RightAfterWrongCodes(cfg: Settings, s: Store, es: seq<Event>, ch: ChallengeId, code: Secret)
    requires Answers(s, ch, code) && OnlyWrongCodes(es, ch, code)
    requires Run(cfg, s, es).now <= s.challenges[ch].expiresAt
    ensures Answers(Run(cfg, s, es), ch, code) <==> es == [] || |es| < Left(cfg, s, ch)
    decreases |es|
  {
    if es != [] {
      var s1, t := Tick(s, es[0].elapsed), Step(cfg, s, es[0]).0;
      assert es[0] in es;
      assert forall e | e in es[1..] :: e in es;
      ClockHolds(cfg, s1, es[0].request);
      ClockGrows(cfg, t, es[1..]);
      WrongCodeThenRight(cfg, s1, ch, code, es[0].request.code);
      if Answers(t, ch, code) {
        RightAfterWrongCodes(cfg, t, es[1..], ch, code);
      } else {
        ConsumedStaysShut(cfg, t, es[1..], ch, code);
      }
    }
  }

  // --- Refusals ---------------------------------------------------------------

  /** The challenge can still be answered, by somebody. */
  ghost predicate Standing(s: Store, ch: ChallengeId) {
    ch in s.challenges && !s.challenges[ch].consumed && s.now <= s.challenges[ch].expiresAt
  }

  /** A code is answered with tokens, with the standing of an account whose challenge is open, or with
      one refusal that does not say which of unknown, spent, expired and wrong it was. */
  lemma CodeAnswers(cfg: Settings, s: Store, ch: ChallengeId, code: Secret)
    requires Owned(s)
    ensures var (t, o) := VerifyChallenge(cfg, s, ch, code);
      && (o.Granted? <==> Answers(s, ch, code))
      && (o == Refused(AccountDisabled) <==> Standing(s, ch) && IsDisabled(s, s.challenges[ch].credential))
      && (o == Refused(AccountLocked) <==>
            && Standing(s, ch) && Enabled(s, s.challenges[ch].credential)
            && Locked(s.credentials[s.challenges[ch].credential], s.now))
      && (o.Granted? || o == Refused(AccountDisabled) || o == Refused(AccountLocked) || o == Refused(InvalidChallenge))
      && (o.Granted? || o == Refused(InvalidChallenge) || t == s)
      && (!Standing(s, ch) ==> t == s)
  {
    VerifyAnswers(cfg, s, ch, code);
  }

  // --- Resending --------------------------------------------------------------

  /** A new code may be sent: not spent, not too old, not too soon, not too often, holder enabled. */
  ghost predicate Resendable(cfg: Settings, s: Store, ch: ChallengeId) {
    && ch in s.challenges && !s.challenges[ch].consumed
    && var x := s.challenges[ch];
    && s.now <= x.createdAt + cfg.otpChallengeMaxAge
    && x.lastSentAt + cfg.otpResendCooldown <= s.now
    && x.sends < cfg.otpMaxSends
    && Enabled(s, x.credential)
  }

  /** The request was a resend of `ch` that changed its code, delivered or not. */
  ghost predicate Resent(s: Store, r: Request, ch: ChallengeId, o: Outcome) {
    r.DoResend? && r.challenge == ch && (o == ChallengeSent(ch) || o == Refused(MailDeliveryFailed))
  }

  /** A resend is granted exactly when it may be. Granted, exactly the new code answers, even where the
      old one had expired, with the attempts back at zero, one more send, and the holder's counter
      as it was. Refused, nothing changes. */
  lemma ResendRenews(cfg: Settings, s: Store, ch: ChallengeId, code: Secret, delivered: bool)
    ensures var (t, o) := ResendChallenge(cfg, s, ch, code, delivered);
      && (Resent(s, DoResend(ch, code, delivered), ch, o) <==> Resendable(cfg, s, ch))
      && (if Resendable(cfg, s, ch) then
            && o == (if delivered then ChallengeSent(ch) else Refused(MailDeliveryFailed))
            && ch in t.challenges && t.challenges[ch].attempts == 0
            && t.challenges[ch].sends == s.challenges[ch].sends + 1 && t.challenges[ch].lastSentAt == s.now
            && t.credentials == s.credentials
            && (cfg.otpTtl >= 0 ==> forall x ::
                  Answers(t, ch, x) <==> x == code && !Locked(s.credentials[s.challenges[ch].credential], s.now))
          else t == s)
  {
  }

  /** Why a resend is refused. */
  lemma ResendRefusals(cfg: Settings, s: Store, ch: ChallengeId, code: Secret, delivered: bool)
    requires Owned(s) && !Resendable(cfg, s, ch)
    ensures var o := ResendChallenge(cfg, s, ch, code, delivered).1;
      var revivable := ch in s.challenges && !s.challenges[ch].consumed
                       && s.now <= s.challenges[ch].createdAt + cfg.otpChallengeMaxAge;
      && (o == Refused(InvalidChallenge) <==> !revivable)
      && (o == Refused(AccountDisabled) <==>
            && revivable && IsDisabled(s, s.challenges[ch].credential)
            && s.challenges[ch].lastSentAt + cfg.otpResendCooldown <= s.now && s.challenges[ch].sends < cfg.otpMaxSends)
      && (o == Refused(ResendTooSoon) || o == Refused(InvalidChallenge) || o == Refused(AccountDisabled))
  {
  }

  /** "Reviving grants no guesses" (services.py:351): a resend leaves the wrong codes a challenge can
      take as they were if and only if none was taken from this code or the holder's ceiling is the
      nearer one; otherwise it adds some. */
  lemma RevivingGrantsNoGuessesIff(cfg: Settings, s: Store, ch: ChallengeId, code: Secret, delivered: bool)
    requires Resendable(cfg, s, ch) && s.challenges[ch].attempts >= 0
    ensures var t := ResendChallenge(cfg, s, ch, code, delivered).0;
      var c := s.challenges[ch].credential;
      && ch in t.challenges && t.challenges[ch].credential == c && c in t.credentials
      && Left(cfg, s, ch) <= Left(cfg, t, ch)
      && (Left(cfg, t, ch) == Left(cfg, s, ch) <==>
            || s.challenges[ch].attempts == 0
            || cfg.maxFailedLogins - s.credentials[c].failedAttempts <= cfg.otpMaxAttempts - s.challenges[ch].attempts)
  {
  }

  // --- Only the last code sent ------------------------------------------------

  /** The code of a challenge changes only when a new one is sent. */
  ghost predicate CodeMoved(s: Store, r: Request, t: Store, o: Outcome, ch: ChallengeId)
    requires ch in s.challenges
  {
    ch in t.challenges && t.challenges[ch].code == if Resent(s, r, ch, o) then r.code else s.challenges[ch].code
  }

  lemma StartMovesNoCode(cfg: Settings, s: Store, c: CredentialId, audience: string, code: Secret, delivered: bool,
                         ch: ChallengeId)
    requires ch in s.challenges && ch != s.next
    ensures var t := StartChallenge(cfg, s, c, audience, code, delivered).0;
      ch in t.challenges && t.challenges[ch].code == s.challenges[ch].code
  {
  }

  lemma LoginMovesNoCode(cfg: Settings, s: Store, r: Request, ch: ChallengeId)
    requires Drawn(s) && r.DoLogin? && ch in s.challenges
    ensures CodeMoved(s, r, Handle(cfg, s, r).0, Handle(cfg, s, r).1, ch)
  {
    var s1 := Authenticate(cfg, s, r.credential, r.password).0;
    StartMovesNoCode(cfg, s1, r.credential, r.audience, r.code, r.delivered, ch);
  }

  lemma GoogleMovesNoCode(cfg: Settings, s: Store, r: Request, ch: ChallengeId)
    requires Drawn(s) && r.DoGoogleCallback? && ch in s.challenges
    ensures CodeMoved(s, r, Handle(cfg, s, r).0, Handle(cfg, s, r).1, ch)
  {
    var s1 := ConsumeState(s, r.state).0;
    if r.answer.Identity? {
      var (s2, id) := UpsertGoogle(s1, r.answer.credential);
      StartMovesNoCode(cfg, s2, id, cfg.defaultAudience, r.code, r.delivered, ch);
    }
  }

  lemma VerifyMovesNoCode(cfg: Settings, s: Store, r: Request, ch: ChallengeId)
    requires r.DoVerify? && ch in s.challenges
    ensures CodeMoved(s, r, Handle(cfg, s, r).0, Handle(cfg, s, r).1, ch)
  {
    if Answers(s, r.challenge, r.code) {
      SignInShape(cfg, s, r.challenge, r.code);
    } else {
      VerifyAnswers(cfg, s, r.challenge, r.code);
    }
  }

  lemma OthersMoveNoCode(cfg: Settings, s: Store, r: Request, ch: ChallengeId)
    requires ch in s.challenges && !r.DoLogin? && !r.DoGoogleCallback? && !r.DoVerify? && !r.DoRefresh?
    ensures CodeMoved(s, r, Handle(cfg, s, r).0, Handle(cfg, s, r).1, ch)
  {
  }

  lemma CodeMoves(cfg: Settings, s: Store, r: Request, ch: ChallengeId)
    requires Drawn(s) && ch in s.challenges
    ensures CodeMoved(s, r, Handle(cfg, s, r).0, Handle(cfg, s, r).1, ch)
  {
    match r {
      case DoLogin(_, _, _, _, _) => LoginMovesNoCode(cfg, s, r, ch);
      case DoGoogleCallback(_, _, _, _) => GoogleMovesNoCode(cfg, s, r, ch);
      case DoVerify(_, _) => VerifyMovesNoCode(cfg, s, r, ch);
      case DoRefresh(raw) => RotateShape(cfg, s, raw);
      case _ => OthersMoveNoCode(cfg, s, r, ch);
    }
  }

  /** The code last sent for `ch`, over a run that began with `code`. */
  ghost function LastSent(cfg: Settings, s: Store, es: seq<Event>, ch: ChallengeId, code: Secret): Secret
    decreases |es|
  {
    if es == [] then code
    else
      var (t, o) := Step(cfg, s, es[0]);
      LastSent(cfg, t, es[1..], ch, if Resent(s, es[0].request, ch, o) then es[0].request.code else code)
  }

  /** In every run a challenge is answered by the code last sent for it and by no other. */
  lemma {:induction false} OnlyTheLastCodeAnswers(cfg: Settings, s: Store, es: seq<Event>, ch: ChallengeId, x: Secret)
    requires Linked(cfg, s) && ch in s.challenges && Answers(Run(cfg, s, es), ch, x)
    ensures x == LastSent(cfg, s, es, ch, s.challenges[ch].code)
    decreases |es|
  {
    if es != [] {
      var s1, r := Tick(s, es[0].elapsed), es[0].request;
      var (t, o) := Step(cfg, s, es[0]);
      TickKeeps(cfg, s, es[0].elapsed);
      CodeMoves(cfg, s1, r, ch);
      StepKeeps(cfg, s, es[0]);
      OnlyTheLastCodeAnswers(cfg, t, es[1..], ch, x);
    }
  }
}
