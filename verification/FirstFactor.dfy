/** The first factor: what a login answers and leaves behind, which password it takes, and that every
    challenge goes back to a right password or an accepted Google callback
    (services.py:211-319, 755-822, 870-902; api.py:143-153, 310-337). */
module FirstFactor {
  import opened Options
  import opened Settings
  import opened Tables
  import opened SignIn
  import opened Accounts
  import opened Machine
  import opened Invariants
  import opened Shapes
  import opened Lockout

  // --- What a login answers ---------------------------------------------------

  /** Challenge `ch` of `c` is new, stands open if `open` says so, and takes exactly `code`. */
  ghost predicate NewChallenge(s: Store, t: Store, ch: ChallengeId, c: CredentialId, code: Secret, open: bool) {
    && ch !in s.challenges && t.challenges.Keys == s.challenges.Keys + {ch}
    && t.challenges[ch].credential == c && t.challenges[ch].code == code
    && t.challenges[ch].consumed == !open
    && t.challenges[ch].attempts == 0 && t.challenges[ch].sends == 1
  }

  /** Every open challenge `c` had is consumed, and no other challenge is touched. */
  ghost predicate OthersSuperseded(s: Store, t: Store, c: CredentialId) {
    forall x | x in s.challenges :: x in t.challenges &&
      if s.challenges[x].credential == c
      then t.challenges[x] == s.challenges[x].(consumed := true)
      else t.challenges[x] == s.challenges[x]
  }

  lemma ChallengeStarted(cfg: Settings, s: Store, c: CredentialId, audience: string, code: Secret, delivered: bool)
    requires s.next !in s.challenges
    ensures var (t, o) := StartChallenge(cfg, s, c, audience, code, delivered);
      && o == (if delivered then ChallengeSent(s.next) else Refused(MailDeliveryFailed))
      && NewChallenge(s, t, s.next, c, code, delivered) && OthersSuperseded(s, t, c)
  {
  }

  /** A right password gets a challenge that takes the mailed code, and the credential's older ones
      are gone; if the mail fails the new one is dead too and the answer says so. */
  lemma RightPasswordIsChallenged(cfg: Settings, s: Store, c: CredentialId, password: Secret, audience: string,
                                  code: Secret, delivered: bool)
    requires Drawn(s) && Enabled(s, c) && !Locked(s.credentials[c], s.now)
    requires s.credentials[c].password == Some(password)
    ensures var (t, o) := Login(cfg, s, c, password, audience, code, delivered);
      && o == (if delivered then ChallengeSent(s.next) else Refused(MailDeliveryFailed))
      && NewChallenge(s, t, s.next, c, code, delivered) && OthersSuperseded(s, t, c)
      && (cfg.otpTtl >= 0 ==> forall x :: Answers(t, s.next, x) <==> delivered && x == code)
  {
    var s1 := Authenticate(cfg, s, c, password).0;
    ChallengeStarted(cfg, s1, c, audience, code, delivered);
    StartChallengeKeepsCredentials(cfg, s1, c, audience, code, delivered);
  }

  /** Any other login is refused and touches no challenge; the answer depends on nothing but the
      account, the lock, the password and the standing, in that order. */
  lemma OtherLoginsAreRefused(cfg: Settings, s: Store, c: CredentialId, password: Secret, audience: string,
                              code: Secret, delivered: bool)
    requires !(Enabled(s, c) && !Locked(s.credentials[c], s.now) && s.credentials[c].password == Some(password))
    ensures var (t, o) := Login(cfg, s, c, password, audience, code, delivered);
      && t.challenges == s.challenges && t.sessions == s.sessions && t.tokens == s.tokens
      && (c !in s.credentials ==> o == Refused(InvalidCredentials) && t == s)
      && (c in s.credentials && Locked(s.credentials[c], s.now) ==> o == Refused(AccountLocked) && t == s)
      && (c in s.credentials && !Locked(s.credentials[c], s.now) && s.credentials[c].password != Some(password) ==>
            o == Refused(InvalidCredentials))
      && (c in s.credentials && !Locked(s.credentials[c], s.now) && s.credentials[c].password == Some(password) ==>
            o == Refused(AccountDisabled) && t == s)
  {
  }

  /** The login got past the first factor. */
  predicate Passed(o: Outcome) {
    o.ChallengeSent? || o == Refused(MailDeliveryFailed)
  }

  lemma PassesIff(cfg: Settings, s: Store, r: Request, c: CredentialId)
    requires Drawn(s) && Enabled(s, c) && !Locked(s.credentials[c], s.now) && r.DoLogin? && r.credential == c
    ensures Passed(Handle(cfg, s, r).1) <==> s.credentials[c].password == Some(r.password)
  {
    if s.credentials[c].password == Some(r.password) {
      RightPasswordIsChallenged(cfg, s, c, r.password, r.audience, r.code, r.delivered);
    } else {
      OtherLoginsAreRefused(cfg, s, c, r.password, r.audience, r.code, r.delivered);
    }
  }

  // --- Google -----------------------------------------------------------------

  /** An accepted state and an identity: a known person keeps the one credential, a new one gets a
      credential without a password, and either way a challenge is started that takes the mailed code. */
  lemma IdentityIsChallenged(cfg: Settings, s: Store, state: Option<Secret>, id: CredentialId, code: Secret,
                             delivered: bool)
    requires Drawn(s) && StateUsable(s, state)
    ensures var (t, o) := GoogleCallback(cfg, s, state, Identity(id), code, delivered);
      var ch := if id in s.credentials then s.next else s.next + 1;
      var c := if id in s.credentials then id else s.next;
      && t.credentials == (if id in s.credentials then s.credentials
                           else s.credentials[c := Credential(None, 0, None, false)])
      && c !in (s.credentials.Keys - {id})
      && o == (if delivered then ChallengeSent(ch) else Refused(MailDeliveryFailed))
      && NewChallenge(s, t, ch, c, code, delivered) && OthersSuperseded(s, t, c)
  {
    var s1 := ConsumeState(s, state).0;
    var (s2, c) := UpsertGoogle(s1, id);
    ChallengeStarted(cfg, s2, c, cfg.defaultAudience, code, delivered);
    StartChallengeKeepsCredentials(cfg, s2, c, cfg.defaultAudience, code, delivered);
  }

  /** Without a usable state or an identity nobody is created and nothing is started. */
  lemma OtherCallbacksAreRefused(cfg: Settings, s: Store, state: Option<Secret>, answer: GoogleAnswer,
                                 code: Secret, delivered: bool)
    requires !StateUsable(s, state) || answer.Rejected?
    ensures var (t, o) := GoogleCallback(cfg, s, state, answer, code, delivered);
      && t.credentials == s.credentials && t.challenges == s.challenges
      && o == Refused(if StateUsable(s, state) then GoogleRejected else InvalidOAuthState)
  {
  }

  // --- Where challenges come from ---------------------------------------------

  /** The request starts challenge `ch` for `c`: a right password, or an accepted Google identity. */
  ghost predicate StartedBy(s: Store, r: Request, ch: ChallengeId, c: CredentialId) {
    || (RightPassword(s, r, c) && ch == s.next)
    || (r.DoGoogleCallback? && StateUsable(s, r.state) && r.answer.Identity?
        && if r.answer.credential in s.credentials then c == r.answer.credential && ch == s.next
           else c == s.next && ch == s.next + 1)
  }

  /** From `s` to `t` every new challenge was started by the request, and old ones keep their holder. */
  ghost predicate ChallengesFrom(s: Store, r: Request, t: Store) {
    && (forall ch | ch in s.challenges ::
          ch in t.challenges && t.challenges[ch].credential == s.challenges[ch].credential)
    && (forall ch | ch in t.challenges && ch !in s.challenges :: StartedBy(s, r, ch, t.challenges[ch].credential))
  }

  lemma LoginChallengesFrom(cfg: Settings, s: Store, r: Request)
    requires Drawn(s) && r.DoLogin?
    ensures ChallengesFrom(s, r, Handle(cfg, s, r).0)
  {
    if Enabled(s, r.credential) && !Locked(s.credentials[r.credential], s.now)
       && s.credentials[r.credential].password == Some(r.password) {
      RightPasswordIsChallenged(cfg, s, r.credential, r.password, r.audience, r.code, r.delivered);
    } else {
      OtherLoginsAreRefused(cfg, s, r.credential, r.password, r.audience, r.code, r.delivered);
    }
  }

  lemma GoogleChallengesFrom(cfg: Settings, s: Store, r: Request)
    requires Drawn(s) && r.DoGoogleCallback?
    ensures ChallengesFrom(s, r, Handle(cfg, s, r).0)
  {
    if StateUsable(s, r.state) && r.answer.Identity? {
      IdentityIsChallenged(cfg, s, r.state, r.answer.credential, r.code, r.delivered);
    } else {
      OtherCallbacksAreRefused(cfg, s, r.state, r.answer, r.code, r.delivered);
    }
  }

  lemma VerifyChallengesFrom(cfg: Settings, s: Store, r: Request)
    requires r.DoVerify?
    ensures ChallengesFrom(s, r, Handle(cfg, s, r).0)
  {
    if Answers(s, r.challenge, r.code) {
      SignInShape(cfg, s, r.challenge, r.code);
    } else {
      VerifyAnswers(cfg, s, r.challenge, r.code);
    }
  }

  lemma RefreshChallengesFrom(cfg: Settings, s: Store, r: Request)
    requires r.DoRefresh?
    ensures ChallengesFrom(s, r, Handle(cfg, s, r).0)
  {
    RotateShape(cfg, s, r.raw);
  }

  lemma OtherChallengesFrom(cfg: Settings, s: Store, r: Request)
    requires !r.DoLogin? && !r.DoGoogleCallback? && !r.DoVerify? && !r.DoRefresh?
    ensures ChallengesFrom(s, r, Handle(cfg, s, r).0)
  {
  }

  lemma RequestChallengesFrom(cfg: Settings, s: Store, r: Request)
    requires Drawn(s)
    ensures ChallengesFrom(s, r, Handle(cfg, s, r).0)
  {
    match r {
      case DoLogin(_, _, _, _, _) => LoginChallengesFrom(cfg, s, r);
      case DoGoogleCallback(_, _, _, _) => GoogleChallengesFrom(cfg, s, r);
      case DoVerify(_, _) => VerifyChallengesFrom(cfg, s, r);
      case DoRefresh(_) => RefreshChallengesFrom(cfg, s, r);
      case _ => OtherChallengesFrom(cfg, s, r);
    }
  }

  ghost predicate StartedInRun(cfg: Settings, s: Store, es: seq<Event>, ch: ChallengeId, c: CredentialId)
    decreases |es|
  {
    es != [] && (StartedBy(Tick(s, es[0].elapsed), es[0].request, ch, c)
                 || StartedInRun(cfg, Step(cfg, s, es[0]).0, es[1..], ch, c))
  }

  /** Every challenge of a run was there at the start, or was started on the way by a right password of
      its holder or an accepted Google identity; and no challenge changes hands. */
  lemma {:induction false} NoChallengeWithoutFirstFactor(cfg: Settings, s: Store, es: seq<Event>, ch: ChallengeId)
    requires Linked(cfg, s)
    ensures var t := Run(cfg, s, es);
      && (ch in s.challenges ==> ch in t.challenges && t.challenges[ch].credential == s.challenges[ch].credential)
      && (ch in t.challenges && ch !in s.challenges ==> StartedInRun(cfg, s, es, ch, t.challenges[ch].credential))
    decreases |es|
  {
    if es != [] {
      TickKeeps(cfg, s, es[0].elapsed);
      RequestChallengesFrom(cfg, Tick(s, es[0].elapsed), es[0].request);
      StepKeeps(cfg, s, es[0]);
      NoChallengeWithoutFirstFactor(cfg, Step(cfg, s, es[0]).0, es[1..], ch);
    }
  }

  // --- Which password ---------------------------------------------------------

  /** The password of `c` is the same. */
  ghost predicate SamePassword(s: Store, t: Store, c: CredentialId) {
    c in s.credentials && c in t.credentials && t.credentials[c].password == s.credentials[c].password
  }

  lemma LoginKeepsPassword(cfg: Settings, s: Store, r: Request, c: CredentialId)
    requires c in s.credentials && r.DoLogin?
    ensures SamePassword(s, Handle(cfg, s, r).0, c)
  {
    LoginCredentials(cfg, s, r.credential, r.password, r.audience, r.code, r.delivered);
  }

  lemma VerifyKeepsPassword(cfg: Settings, s: Store, r: Request, c: CredentialId)
    requires c in s.credentials && r.DoVerify?
    ensures SamePassword(s, Handle(cfg, s, r).0, c)
  {
    if Answers(s, r.challenge, r.code) {
      SignInShape(cfg, s, r.challenge, r.code);
    } else {
      VerifyAnswers(cfg, s, r.challenge, r.code);
    }
  }

  lemma GoogleKeepsPassword(cfg: Settings, s: Store, r: Request, c: CredentialId)
    requires Rooted(cfg, s) && c in s.credentials && r.DoGoogleCallback?
    ensures SamePassword(s, Handle(cfg, s, r).0, c)
  {
    var s1 := ConsumeState(s, r.state).0;
    if r.answer.Identity? {
      var (s2, id) := UpsertGoogle(s1, r.answer.credential);
      StartChallengeKeepsCredentials(cfg, s2, id, cfg.defaultAudience, r.code, r.delivered);
    }
  }

  lemma OthersKeepPassword(cfg: Settings, s: Store, r: Request, c: CredentialId)
    requires Drawn(s) && c in s.credentials && !ResetOf(s, r, c)
    requires !r.DoLogin? && !r.DoVerify? && !r.DoGoogleCallback? && !r.DoRefresh?
    ensures SamePassword(s, Handle(cfg, s, r).0, c)
  {
  }

  /** Only a confirmed reset changes a password. */
  lemma PasswordKept(cfg: Settings, s: Store, r: Request, c: CredentialId)
    requires Rooted(cfg, s) && c in s.credentials && !ResetOf(s, r, c)
    ensures SamePassword(s, Handle(cfg, s, r).0, c)
  {
    match r {
      case DoLogin(_, _, _, _, _) => LoginKeepsPassword(cfg, s, r, c);
      case DoVerify(_, _) => VerifyKeepsPassword(cfg, s, r, c);
      case DoGoogleCallback(_, _, _, _) => GoogleKeepsPassword(cfg, s, r, c);
      case DoRefresh(raw) => RotateKeepsStanding(cfg, s, raw);
      case _ => OthersKeepPassword(cfg, s, r, c);
    }
  }

  lemma {:induction false} PasswordStays(cfg: Settings, s: Store, es: seq<Event>, c: CredentialId)
    requires Linked(cfg, s) && c in s.credentials && NoReset(cfg, s, es, c)
    ensures SamePassword(s, Run(cfg, s, es), c)
    decreases |es|
  {
    if es != [] {
      TickKeeps(cfg, s, es[0].elapsed);
      NoResetFirst(cfg, s, es, c);
      NoResetLater(cfg, s, es, c);
      PasswordKept(cfg, Tick(s, es[0].elapsed), es[0].request, c);
      StepKeeps(cfg, s, es[0]);
      PasswordStays(cfg, Step(cfg, s, es[0]).0, es[1..], c);
    }
  }

  /** `c` is enabled and not locked. */
  ghost predicate Judged(s: Store, c: CredentialId) {
    Enabled(s, c) && !Locked(s.credentials[c], s.now)
  }

  /** From here on, until a reset of `c` is confirmed, a login of `c` that is judged at all gets past
      the first factor if and only if it brings `password`. */
  ghost predicate Governs(cfg: Settings, s: Store, c: CredentialId, password: Secret) {
    forall es, later: Event | NoReset(cfg, s, es, c) && later.request.DoLogin? && later.request.credential == c
                              && Judged(Tick(Run(cfg, s, es), later.elapsed), c) ::
      Passed(Step(cfg, Run(cfg, s, es), later).1) <==> later.request.password == password
  }

  lemma StoredPasswordGoverns(cfg: Settings, s: Store, c: CredentialId, password: Secret)
    requires Linked(cfg, s) && c in s.credentials && s.credentials[c].password == Some(password)
    ensures Governs(cfg, s, c, password)
  {
    forall es, later: Event | NoReset(cfg, s, es, c) && later.request.DoLogin? && later.request.credential == c
                              && Judged(Tick(Run(cfg, s, es), later.elapsed), c)
      ensures Passed(Step(cfg, Run(cfg, s, es), later).1) <==> later.request.password == password
    {
      PasswordStays(cfg, s, es, c);
      RunKeeps(cfg, s, es);
      TickKeeps(cfg, Run(cfg, s, es), later.elapsed);
      PassesIff(cfg, Tick(Run(cfg, s, es), later.elapsed), later.request, c);
    }
  }

  /** A sign-up makes a new credential, enabled and unlocked, and its password governs. */
  lemma SignUpGoverns(cfg: Settings, s: Store, e: Event)
    requires Linked(cfg, s) && e.request.DoSignUp?
    ensures var (t, o) := Step(cfg, s, e);
      && o.Created? && o.credential !in s.credentials && Judged(t, o.credential)
      && Governs(cfg, t, o.credential, e.request.newPassword)
  {
    StepKeeps(cfg, s, e);
    var (t, o) := Step(cfg, s, e);
    assert t.credentials[o.credential] == Credential(Some(e.request.newPassword), 0, None, false);
    StoredPasswordGoverns(cfg, t, o.credential, e.request.newPassword);
  }

  lemma Repassword(cfg: Settings, s: Store, raw: Secret, password: Secret)
    requires ConfirmReset(s, raw, password).1 == Done
    ensures ResetUsable(s, raw)
    ensures var t := ConfirmReset(s, raw, password).0; var c := s.resets[raw].credential;
      && c in t.credentials && t.credentials[c].password == Some(password)
      && t.credentials[c].failedAttempts == 0 && t.credentials[c].lockedUntil.None?
      && t.credentials[c].disabled == s.credentials[c].disabled
  {
  }

  /** A confirmed reset lifts any lock, leaves the standing alone, and from then on the new password
      governs: the old one is worth nothing. */
  lemma ResetGoverns(cfg: Settings, s: Store, e: Event)
    requires Linked(cfg, s) && e.request.DoConfirmReset? && Step(cfg, s, e).1 == Done
    ensures e.request.raw in s.resets
    ensures var c := s.resets[e.request.raw].credential; var t := Step(cfg, s, e).0;
      && c in t.credentials && !Locked(t.credentials[c], t.now) && t.credentials[c].failedAttempts == 0
      && (Enabled(t, c) <==> Enabled(s, c))
      && Governs(cfg, t, c, e.request.newPassword)
  {
    var s1 := Tick(s, e.elapsed);
    Repassword(cfg, s1, e.request.raw, e.request.newPassword);
    StepKeeps(cfg, s, e);
    StoredPasswordGoverns(cfg, Step(cfg, s, e).0, s.resets[e.request.raw].credential, e.request.newPassword);
  }
}
