/** The password reset token (services.py:755-822): good once, until its deadline. */
module ResetTokens {
  import opened Settings
  import opened Tables
  import opened Accounts
  import opened Machine
  import opened Invariants
  import opened FirstFactor

  /** The request confirms a reset with this token. */
  predicate Confirms(r: Request, raw: Secret) {
    r.DoConfirmReset? && r.raw == raw
  }

  ghost predicate NeverConfirmed(es: seq<Event>, raw: Secret) {
    forall e | e in es :: !Confirms(e.request, raw)
  }

  /** From `s` to `t` the row of `raw` is the same, except that it is spent if `spent` says so. */
  ghost predicate RowKept(s: Store, t: Store, raw: Secret, spent: bool) {
    && raw in s.resets && raw in t.resets
    && t.resets[raw] == s.resets[raw].(used := s.resets[raw].used || spent)
  }

  /** A row moves only when its own token is confirmed in time. */
  lemma RowStep(cfg: Settings, s: Store, r: Request, raw: Secret)
    requires Drawn(s) && raw in s.resets
    ensures RowKept(s, Handle(cfg, s, r).0, raw, Confirms(r, raw) && ResetUsable(s, raw))
  {
    if !r.DoRequestReset? && !r.DoConfirmReset? {
      ResetsLeftAlone(cfg, s, r);
    }
  }

  lemma UsableRow(cfg: Settings, s: Store, raw: Secret)
    requires Rooted(cfg, s) && raw in s.resets
    ensures ResetUsable(s, raw) <==> !s.resets[raw].used && s.now <= s.resets[raw].expiresAt
  {
  }

  /** Until the deadline, the row is spent exactly when somebody confirmed it. */
  lemma {:induction false} RowRun(cfg: Settings, s: Store, es: seq<Event>, raw: Secret)
    requires Linked(cfg, s) && raw in s.resets
    ensures raw in Run(cfg, s, es).resets
    ensures Run(cfg, s, es).resets[raw].expiresAt == s.resets[raw].expiresAt
    ensures Run(cfg, s, es).now <= s.resets[raw].expiresAt ==>
      RowKept(s, Run(cfg, s, es), raw, !NeverConfirmed(es, raw))
    decreases |es|
  {
    if es != [] {
      var s1, t, rest := Tick(s, es[0].elapsed), Step(cfg, s, es[0]).0, es[1..];
      TickKeeps(cfg, s, es[0].elapsed);
      RowStep(cfg, s1, es[0].request, raw);
      UsableRow(cfg, s1, raw);
      StepKeeps(cfg, s, es[0]);
      ClockHolds(cfg, s1, es[0].request);
      ClockGrows(cfg, t, rest);
      assert forall e | e in es :: e == es[0] || e in rest;
      RowRun(cfg, t, rest, raw);
    }
  }

  lemma ConfirmedIffUsable(cfg: Settings, s: Store, r: Request, raw: Secret)
    requires Confirms(r, raw)
    ensures Handle(cfg, s, r).1 == if ResetUsable(s, raw) then Done else Refused(InvalidResetToken)
  {
  }

  lemma IssuedRow(cfg: Settings, s: Store, e: Event, raw: Secret)
    requires e.request.DoRequestReset? && Step(cfg, s, e).1 == Issued(raw)
    ensures var t := Step(cfg, s, e).0;
      raw in t.resets && t.resets[raw] == ResetToken(e.request.credential, t.now + cfg.resetTokenTtl, false)
  {
  }

  /** The life of a reset token: confirming with it succeeds if and only if its deadline has not
      passed and nobody has confirmed with it before. */
  lemma {:induction false} ConfirmedOnceInTime(cfg: Settings, s: Store, e: Event, es: seq<Event>, later: Event,
                                               raw: Secret)
    requires Linked(cfg, s)
    requires e.request.DoRequestReset? && Step(cfg, s, e).1 == Issued(raw)
    requires Confirms(later.request, raw)
    ensures var t := Step(cfg, s, e).0; var u := Run(cfg, t, es);
      Step(cfg, u, later).1 ==
      if u.now + later.elapsed <= t.now + cfg.resetTokenTtl && NeverConfirmed(es, raw) then Done
      else Refused(InvalidResetToken)
  {
    var t := Step(cfg, s, e).0;
    var u := Run(cfg, t, es);
    StepKeeps(cfg, s, e);
    IssuedRow(cfg, s, e, raw);
    RowRun(cfg, t, es, raw);
    RunKeeps(cfg, t, es);
    TickKeeps(cfg, u, later.elapsed);
    UsableRow(cfg, Tick(u, later.elapsed), raw);
    ConfirmedIffUsable(cfg, Tick(u, later.elapsed), later.request, raw);
  }

  /** A known account gets a token of its own that was never issued before; an unknown one is answered
      and nothing happens. */
  lemma ResetRequested(cfg: Settings, s: Store, c: CredentialId)
    requires Drawn(s)
    ensures var (t, o) := RequestReset(cfg, s, c);
      if c in s.credentials then
        && o.Issued? && o.secret !in s.resets && t.resets.Keys == s.resets.Keys + {o.secret}
        && t.resets[o.secret].credential == c
      else t == s && o == Done
  {
  }

  /** The whole way round: a token requested for `c` and confirmed in time, whatever else runs in
      between, lifts the lock of `c` and puts the new password in the place of the old one. */
  lemma {:induction false} ResetReplacesPassword(cfg: Settings, s: Store, e: Event, es: seq<Event>, confirm: Event)
    requires Linked(cfg, s) && e.request.DoRequestReset? && Step(cfg, s, e).1.Issued?
    requires Confirms(confirm.request, Step(cfg, s, e).1.secret)
    requires Step(cfg, Run(cfg, Step(cfg, s, e).0, es), confirm).1 == Done
    ensures var c := e.request.credential; var t := Step(cfg, Run(cfg, Step(cfg, s, e).0, es), confirm).0;
      && c in t.credentials && !Locked(t.credentials[c], t.now)
      && Governs(cfg, t, c, confirm.request.newPassword)
  {
    var t, raw := Step(cfg, s, e).0, Step(cfg, s, e).1.secret;
    StepKeeps(cfg, s, e);
    IssuedRow(cfg, s, e, raw);
    RowHolder(cfg, t, es, raw);
    RunKeeps(cfg, t, es);
    ResetGoverns(cfg, Run(cfg, t, es), confirm);
  }

  lemma {:induction false} RowHolder(cfg: Settings, s: Store, es: seq<Event>, raw: Secret)
    requires Linked(cfg, s) && raw in s.resets
    ensures raw in Run(cfg, s, es).resets && Run(cfg, s, es).resets[raw].credential == s.resets[raw].credential
    decreases |es|
  {
    if es != [] {
      TickKeeps(cfg, s, es[0].elapsed);
      RowStep(cfg, Tick(s, es[0].elapsed), es[0].request, raw);
      StepKeeps(cfg, s, es[0]);
      RowHolder(cfg, Step(cfg, s, es[0]).0, es[1..], raw);
    }
  }
}
