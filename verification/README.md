# MXTNG Auth: a verified model

MXTNG Auth is an identity provider: it checks a password or a Google identity, mails a sign-in
code, and answers a right code with a short access token and a rotating refresh token. This
project models its service layer (`src/mxtng_auth/services.py`), its request limiter
(`src/mxtng_auth/ratelimit.py`) and its integer encoding for published keys (`_b64url_uint` in
`src/mxtng_auth/signer.py`), and proves what they promise over whole runs.

`dafny verify dfyconfig.toml` checks all of it.

## How it is modelled

- `Tables` has the rows of the six tables and `Store`, the value of the whole database.
- `Sessions`, `SignIn` and `Accounts` specify each handler as a function on `Store`; `Machine`
  puts them together as one step per request. An event carries the seconds since the one before,
  so every sequence of events is a run and the clock never goes back.
- `Service` has the class `AuthService`, whose methods update the tables in place, loop over query
  results as the source does, and are proved equal to those functions. A claim that is refused
  after the conditional update is written and rolled back, as an uncommitted transaction is.
- `Invariants` proves what every reachable store satisfies, `Shapes` that a request can do only
  three things to sessions and tokens (revoke, sign in, rotate); the other modules build on both.
- `FirstFactor`, `SecondFactor`, `AudienceClamp` and `Liveness` say from outside what a login, a code,
  a resend, a reset, a minted audience and an introspection answer, each with exact conditions.
- `Interleaving`, `RaceEndings`, `RaceSweeps`, `RaceSessions` and `RaceProvenance` open the gap
  between the two commits of `rotate_refresh`: any number of rotations in flight, crashes in the gap,
  every other request in between.

Choices that the reader should know:

- Every identifier and secret is drawn from one counter. No theorem uses that a client cannot guess
  the next value: a request may present any number at all. Digests are injective, so a row is keyed
  by the secret itself, and bcrypt is equality. A sign-in code is a value the request brings along,
  so codes may repeat.
- An email address is represented by the id of the credential that holds it; an id not in the table
  is an unknown address, or for Google a person seen for the first time.
- The clock is read once per request. Whether mail is delivered, and what Google answers, is part of
  the request.
- Settings are arbitrary integers; each theorem names the positivity it needs.
- A run may start from any store that satisfies the invariant, families older than the session table
  included (`Orphans` shows that such stores exist and what they add).

## Where the documentation and the code differ

- `verify_challenge` (`services.py:415-417`) promises a fixed number of guesses in total to whoever
  has the password. A correct password clears the counter (`:254`), and so does a confirmed reset
  (`:816-817`). Over runs without a confirmed reset, the wrong guesses against an enabled credential
  are bounded if and only if every wrong guess locks, that is `MAX_FAILED_LOGINS <= 1` and
  `LOGIN_LOCKOUT_SECONDS >= 1` (`LockoutLimits.TotalBoundIff`; the default of the first is 5). Then
  T seconds without a confirmed reset have at most floor(T / LOGIN_LOCKOUT_SECONDS) + 1 of them, right
  passwords and codes in between or not (`LockoutLimits.TotalBound`); otherwise any number is
  evaluated in no time (`LockoutLimits.NoBoundInTotal`). What holds for every ceiling of at least one,
  as long as a lock lasts a second, is a bound for an enabled credential per stretch without a right
  password, a right code or a reset: `Lockout.LockoutBound`, exact by
  `LockoutLimits.LockoutBoundIsReached`.
- "Reviving grants no guesses" (`services.py:352`): a resend puts the attempts of a challenge back at
  zero. The wrong codes it can still take stay the same if and only if none was taken from the
  present code or the holder's own ceiling is the nearer one; otherwise there are more
  (`SecondFactor.RevivingGrantsNoGuessesIff`).
- A disabled credential is outside all of this: its password is compared (`services.py:236-243`) and
  nothing is counted. Unless it is locked when it is disabled, each login is told whether its password
  was right, for any number of them (`LockoutLimits.DisabledIsNeverCounted`).
- "Refresh reuse revokes the whole token family" (README.md:25 of the repository) holds for requests
  served one after another (`Families.ReplayIsFinal`). With a rotation of that family between its
  commits it does not (`RaceEndings.ReplayInTheGap`); `RaceEndings.DeadForGoodIff` is the exact
  condition. A session that was ended stays useless even then (`RaceEndings.EndedSessionNeverRotates`).
- Logging out everywhere, a reset and disabling leave a credential nothing that works, and disabling
  is absorbing, for requests served one after another (`Endings.SweepingEndings`,
  `Endings.DisableIsAbsorbing`). None of that holds in the gap: a rotation past its claim is finished
  without a second look at the credential (`services.py:681-693`), so it leaves a disabled credential
  an unrevoked token, and a live session if it adopts an orphan family (`RaceSweeps.DisableInTheGap`).
  The exact condition is that no rotation of the credential is in flight (`RaceSweeps.SweptForGoodIff`,
  `RaceSweeps.DisabledForGoodIff`). What came back is never rotated again
  (`RaceSweeps.DisabledNeverRotates`).
- "Revoking one revokes both", a session and its refresh chain (`models.py:186`), holds one way: an
  ended session has only revoked tokens (`Invariants.RunKeeps`). Detected reuse
  (`services.py:657-665`) revokes the family and leaves the session live, and introspection goes on
  answering it as live (`Endings.ReuseLeavesSessionLive`; `Endings.ReuseIsReached` gets there from an
  empty deployment in five requests). It is the only exception: one request after another, a family
  is dead if and only if its session has ended or one of its spent or revoked tokens was presented
  (`Endings.RevokedTogetherOrReused`).
- A crash between the two commits of a rotation strands the family for good: its holder's next refresh
  is taken for theft (`Interleaving.LostFamilyIsStranded`).
- Zero is encoded as the empty text, where section 2 of RFC 7518 asks for "AA"
  (`Base64Url.EmptyTextIffZero`); every other value conforms.

## Model

Every handler of the class is proved equal to its function and used by `Service.AuthService.Serve`.
Those that loop, sweep or combine others have a row of their own; for the short ones the row is the
lemma that says what they promise.

| member | source | states |
|---|---|---|
| Service.AuthService.RevokeFamily | src/mxtng_auth/services.py:702-707 | the loop revokes exactly the tokens of the family, whoever holds them |
| Service.AuthService.EndSession | src/mxtng_auth/services.py:512-517 | one session ends with its reason and time, and its family, if it has one, is revoked |
| Service.AuthService.EndEach | src/mxtng_auth/services.py:511-519 | the loop ends exactly the given sessions and revokes exactly the families behind them |
| Service.AuthService.RevokeSessionsForCredential | src/mxtng_auth/services.py:500-519 | every live session of the credential ends with the family behind it; the answer is the set of sessions ended |
| Service.AuthService.RevokeAllForCredential | src/mxtng_auth/services.py:740-751 | every token and every session of the credential, and the family behind each such session, is revoked |
| Service.AuthService.GetSessionByFamily | src/mxtng_auth/services.py:697-699 | finds the family's session when there is one |
| Service.AuthService.StartSession | src/mxtng_auth/services.py:522-566 | ends the older sessions when this is a sign-in under the one-session policy, then opens the new one |
| Service.AuthService.IssueTokens | src/mxtng_auth/services.py:570-624 | opens or continues a session, mints for it, inserts the refresh token and ties session and family |
| Service.AuthService.ClaimToken | src/mxtng_auth/services.py:627-680 | the conditional claim: one winner, reuse burns the family, each later refusal leaves the store as it was |
| Service.AuthService.RotateRefresh | src/mxtng_auth/services.py:627-694 | both transactions of a rotation, back to back |
| Service.AuthService.RevokeByRaw | src/mxtng_auth/services.py:710-724 | logout revokes the presented token's family and ends its session; an unknown token changes nothing |
| Service.AuthService.RevokeAllByRaw | src/mxtng_auth/services.py:727-737 | the presented token names the credential whose everything is revoked |
| Service.AuthService.CountFailure | src/mxtng_auth/services.py:246-249 | the counter wraps into a lock at the ceiling |
| Service.AuthService.SupersedeChallenges | src/mxtng_auth/services.py:262-272 | the loop consumes exactly the open challenges of the credential |
| Service.AuthService.StartChallenge | src/mxtng_auth/services.py:287-319 | older challenges are consumed, the new one inserted, and retired again when the mail fails |
| Service.AuthService.Login | src/mxtng_auth/api.py:143-153 | the first factor, then the challenge, in one request |
| Service.AuthService.VerifyChallenge | src/mxtng_auth/services.py:407-461 | the refusals in their order; a wrong code counts twice over and may burn the challenge; a right one signs in |
| Service.AuthService.ConfirmPasswordReset | src/mxtng_auth/services.py:801-822 | a usable token replaces the password, lifts the lock, is spent, and ends every session |
| Service.AuthService.DisableCredential | src/mxtng_auth/services.py:919-923 | the credential is disabled and everything it holds revoked |
| Service.AuthService.PurgeExpiredOAuthStates | src/mxtng_auth/services.py:867-870 | exactly the states past their deadline go |
| Service.AuthService.GoogleCallback | src/mxtng_auth/api.py:310-337 | the state is burned first, then the identity found or created, then a challenge started |
| Service.AuthService.LiveSessionIds | src/mxtng_auth/services.py:478-497 | the two loops compute the first occurrences of the input filtered by the per-id test |
| Service.AuthService.Serve | src/mxtng_auth/services.py:211-924 | every request keeps the class invariant and is one step of the machine |
| FirstFactor.RightPasswordIsChallenged | src/mxtng_auth/services.py:211-319 | a right password of an enabled unlocked account gets a new challenge that takes exactly the mailed code, the account's older ones are gone; when the mail fails the new one is dead too and the answer says so |
| FirstFactor.OtherLoginsAreRefused | src/mxtng_auth/services.py:221-252 | every other login is refused, by unknown account, lock, password and standing in that order, and touches no challenge, session or token |
| FirstFactor.NoChallengeWithoutFirstFactor | src/mxtng_auth/services.py:287-319 | every challenge of a run that the start did not have was started by a right password of its holder or an accepted Google identity, and none changes hands |
| FirstFactor.SignUpGoverns | src/mxtng_auth/services.py:195-206 | from a sign-up on, and until a reset is confirmed, a login of the new account that is judged gets past the first factor if and only if it brings that password |
| FirstFactor.ResetGoverns | src/mxtng_auth/services.py:815-822 | a confirmed reset lifts any lock, leaves the standing alone, and from then on a login that is judged gets past the first factor if and only if it brings the new password |
| FirstFactor.IdentityIsChallenged | src/mxtng_auth/services.py:874-902 | with an accepted state, a known Google person keeps the one account, a new one gets an account without a password, and either is sent a challenge that takes the mailed code |
| FirstFactor.OtherCallbacksAreRefused | src/mxtng_auth/api.py:318-326 | without a usable state or an identity, nobody is created and no challenge is started |
| SecondFactor.WrongCodeThenRight | src/mxtng_auth/services.py:430-443 | after a wrong code the right one still answers if and only if neither ceiling was reached |
| SecondFactor.RightAfterWrongCodes | src/mxtng_auth/services.py:430-446 | within a code's life, the right code is accepted after n wrong ones if and only if n is below what is left of both ceilings |
| SecondFactor.CodeAnswers | src/mxtng_auth/services.py:407-443 | a code gets tokens, the standing of the account of an open challenge, or one refusal that does not tell unknown, spent, expired and wrong apart |
| SecondFactor.ResendRenews | src/mxtng_auth/services.py:356-404 | a resend is granted exactly when the challenge is open, young enough, not too soon, not too often and its holder enabled; then exactly the new code answers, attempts are back at zero and the lockout is as it was; refused, nothing changes |
| SecondFactor.ResendRefusals | src/mxtng_auth/services.py:348-382 | why a resend is refused |
| SecondFactor.RevivingGrantsNoGuessesIff | src/mxtng_auth/services.py:352-354 | a resend leaves the wrong codes a challenge can take as they were if and only if none was taken from this code or the holder's ceiling is the nearer one |
| SecondFactor.OnlyTheLastCodeAnswers | src/mxtng_auth/services.py:368-369 | in every run only the code last sent for a challenge answers it |
| AudienceClamp.MintedWithinTheList | src/mxtng_auth/tokens.py:41-45 | every access token of every run is for an allowed audience or the default |
| AudienceClamp.SignInServesTheRequest | src/mxtng_auth/services.py:287-291 | whatever runs between the two factors, the token at the end is for who logged in and for the audience asked for if allowed, the default otherwise |
| AudienceClamp.GoogleServesTheDefault | src/mxtng_auth/api.py:330-332 | a Google sign-in is for the default audience |
| Liveness.RequestMovesSession | src/mxtng_auth/services.py:500-751 | a live session ends exactly by a sign-in of its holder under the policy, its own logout, or a logout everywhere, reset or disabling of its holder; the row says which and when; nothing else touches it |
| Liveness.GrantedIsReportedUntilEnded | src/mxtng_auth/services.py:470-497 | the sid of an access token is in the answer to any batch that asks, from the grant on, exactly until a request ends its session |
| Liveness.EndedIsNeverReported | src/mxtng_auth/services.py:470-497 | once a session has ended, no answer of any later state has it |
| Liveness.NewestOnlyIsReported | src/mxtng_auth/services.py:530-541 | right after a sign-in under the policy, of all the sessions its holder ever had an answer has the new one only |
| Liveness.UnknownIsNeverReported | src/mxtng_auth/services.py:470-475 | a sid never issued is dead |
| UnknownNames.NothingNamedNothingDone | src/mxtng_auth/services.py:221-225 | a request that names no known account, challenge, token or state changes nothing and is answered by its kind alone |
| Invariants.HandleKeeps | src/mxtng_auth/services.py:211-924 | every request keeps: families have one holder, audience and fate; an ended session has no usable token; one session per family; a disabled credential holds nothing usable; keys resolve |
| Invariants.RunKeeps | src/mxtng_auth/services.py:211-924 | so every reachable store has all of that |
| Invariants.RevokeAllKeeps | src/mxtng_auth/services.py:740-751 | revoking by holder takes whole families, because a family has one holder |
| Invariants.AddTokenKeeps | src/mxtng_auth/services.py:604-623 | a token may join a family whose holder, audience and session are its own |
| Invariants.ClaimedKeeps | src/mxtng_auth/services.py:632-680 | a won claim leaves a store in which the successor may be issued: enabled holder, open session, whole family |
| Shapes.SignInShape | src/mxtng_auth/services.py:446-461 | a right code ends the old sessions and adds one session and one token on a family of their own |
| Shapes.RotateShape | src/mxtng_auth/services.py:627-694 | a rotation is granted exactly when the claim is won, and then adds one token, and a session only when adopting |
| Shapes.OthersOnlyRevoke | src/mxtng_auth/services.py:211-924 | every other request at most revokes tokens and ends sessions, and mints nothing |
| Families.RotationRefinesOneCurrentToken | src/mxtng_auth/services.py:570-751 | in every serial run the token rows simulate a machine with one current token per family, answer by answer |
| Families.StepSimulates | src/mxtng_auth/services.py:570-751 | one request is one input of that machine, with the same answer |
| Families.EmptyLedger | src/mxtng_auth/services.py:570-751 | an empty deployment is an empty machine, so every run from it is covered |
| Families.OnlyTheDeadline | src/mxtng_auth/services.py:667-678 | in a reachable store a usable current token is refused only for its deadline: the disabled and ended-session refusals cannot occur |
| Families.DeadChainsStayDead | src/mxtng_auth/services.py:657-665 | through every run a chain of the abstract machine keeps its owner, and a dead one is frozen, gains and loses no token, and answers each of its tokens as replayed |
| Families.SpentTokensStaySpent | src/mxtng_auth/services.py:648-665 | through every run a spent token is never current again, and presenting it is a replay that kills its chain |
| Families.ReplayIsFinal | src/mxtng_auth/services.py:657-665 | presenting a spent or revoked token kills its family, which gains no token and rotates none in any later state |
| Endings.DeadFamilyStaysDead | src/mxtng_auth/services.py:657-665 | a family all of whose tokens are revoked stays so in every run, gains none, and every refresh of it is a detected reuse |
| Endings.EndedSessionsStayEnded | src/mxtng_auth/services.py:500-519 | an ended session's row is frozen, its family closed and revoked, and no token of it ever rotates |
| Endings.LogoutEnds | src/mxtng_auth/services.py:710-724 | logout ends the session tied to the presented token |
| Endings.ReuseLeavesSessionLive | src/mxtng_auth/services.py:657-665 | presenting a spent or revoked token of a live session's family kills the family and leaves the session live |
| Endings.ReuseIsReached | src/mxtng_auth/services.py:657-665 | signing up, signing in and refreshing twice with the same token ends with a live session over a dead family |
| Endings.RevokedTogetherOrReused | src/mxtng_auth/models.py:186 | in every run a session stays tied to its family, and the family is dead if and only if the session has ended or a spent or revoked token of the family was presented |
| Endings.SweepingEndings | src/mxtng_auth/services.py:727-822 | logging out everywhere, a reset and disabling leave the credential nothing usable |
| Endings.GrantsNeedStanding | src/mxtng_auth/services.py:423-424 | tokens are minted only for an enabled credential |
| Endings.DisableIsAbsorbing | src/mxtng_auth/services.py:919-923 | after disabling, in every run: still disabled, no live session, no usable token, nothing minted |
| SingleSession.SingleSessionPotential | src/mxtng_auth/services.py:522-624 | under the policy live sessions plus usable orphan families never exceed one plus the orphans of the start |
| SingleSession.AtMostOneLiveSession | src/mxtng_auth/services.py:522-548 | without orphans no two sessions of a credential are ever live together |
| SingleSession.NewestWins | src/mxtng_auth/services.py:530-541 | right after a sign-in exactly the new session is live |
| SingleSession.RotationEvictsNobody | src/mxtng_auth/services.py:681-691 | rotating ends no session of anybody |
| SingleSession.Adoption | src/mxtng_auth/services.py:676-691 | adopting turns one orphan family into one live session |
| Lockout.CounterMoves | src/mxtng_auth/services.py:227-256 | wrong guesses count, successes clear, and no request moves the counter or the deadline otherwise |
| Lockout.CounterBelowCeiling | src/mxtng_auth/services.py:246-249 | in every run the counter of every credential, those created on the way included, is below the ceiling after every step |
| Lockout.LockoutBound | src/mxtng_auth/services.py:426-448 | for an enabled credential, a stretch of T seconds without a right password, a right code or a reset evaluates at most MAX_FAILED_LOGINS * (floor(T / LOGIN_LOCKOUT_SECONDS) + 1) wrong guesses, passwords and codes together |
| LockoutLimits.LockoutBoundIsReached | src/mxtng_auth/services.py:245-252 | for every number of lockouts some stretch of that length evaluates exactly the bound |
| LockoutLimits.TotalBound | src/mxtng_auth/services.py:245-252 | where every wrong guess locks, T seconds without a confirmed reset have at most floor(T / LOGIN_LOCKOUT_SECONDS) + 1 wrong guesses against an enabled credential, right passwords and codes in between or not |
| LockoutLimits.NoBoundInTotal | src/mxtng_auth/services.py:415-417 | where one wrong guess does not lock, any number of wrong codes is evaluated in no time for a holder of the password |
| LockoutLimits.TotalBoundIff | src/mxtng_auth/services.py:415-417 | for a holder of the password of an open credential, the wrong guesses of runs of any one length without a confirmed reset are bounded if and only if MAX_FAILED_LOGINS <= 1 and LOGIN_LOCKOUT_SECONDS >= 1 |
| LockoutLimits.DisabledIsNeverCounted | src/mxtng_auth/services.py:236-243 | in every run without a confirmed reset, each login of a disabled unlocked credential answers whether its password was right, and neither counter nor deadline ever moves |
| Lockout.LockHolds | src/mxtng_auth/services.py:227-231 | until its deadline and without a reset, a lock refuses every password and every code of the credential and nothing moves its counter |
| Challenges.ChallengeRun | src/mxtng_auth/services.py:262-404 | in every run each challenge keeps its clock and counter bounds, a credential has at most one open challenge, and every wrong code is paid for |
| Challenges.PerChallengeGuessBound | src/mxtng_auth/services.py:430-437 | over the life of a challenge, resends included, at most OTP_MAX_SENDS_PER_CHALLENGE * (OTP_MAX_ATTEMPTS - 1) + 1 wrong codes |
| Challenges.AnsweredByDeadline | src/mxtng_auth/services.py:359-392 | no code is accepted later than the maximum age plus one code's life after the challenge was created |
| Challenges.ConsumedForGood | src/mxtng_auth/services.py:348-361 | a consumed challenge never changes again |
| Challenges.ResendMoves | src/mxtng_auth/services.py:332-404 | a resend keeps every challenge's clock and counter bounds, its birth, and what its wrong codes have cost |
| Provenance.EverySessionAccounted | src/mxtng_auth/services.py:418-461 | every session of a run was opened by presenting the current code of a challenge, consumed since, of the same holder and audience, no challenge opening two; or it adopted an orphan family |
| Provenance.SessionsNeedBothFactors | src/mxtng_auth/services.py:287-461 | a session opened through a challenge of the run goes back to a right password of its holder or a Google identity that is its holder |
| Provenance.RotationsKeepIdentity | src/mxtng_auth/services.py:676-691 | in every serial run, every later rotation in the family of a granted token answers with the same sub, aud and sid |
| NonInterference.OthersUntouched | src/mxtng_auth/services.py:500-751 | a request acting for one credential changes no row of any other: counter, lock, challenges, sessions, tokens, reset tokens |
| NonInterference.OthersUntouchedRun | src/mxtng_auth/services.py:500-751 | nor does a whole run in which nobody acts for that credential |
| Interleaving.Conservation | src/mxtng_auth/services.py:632-694 | in every interleaving each family has exactly one of: an unrotated token, a rotation claimed and not issued, a rotation lost in a crash |
| Interleaving.BackToBackIsRotate | src/mxtng_auth/services.py:627-694 | beginning and finishing with nothing in between is the serial rotation |
| Interleaving.ConservationWithoutCrashes | src/mxtng_auth/services.py:680-693 | where no rotation is lost between its commits, each family always has exactly one unrotated token or one rotation about to issue it |
| Interleaving.LostFamilyIsStranded | src/mxtng_auth/services.py:680-693 | once a rotation is lost between its commits, presenting any token of its family, in any later state of any interleaving, is detected as reuse and kills the family |
| Interleaving.FinishAppends | src/mxtng_auth/services.py:680-691 | a finished rotation issues the successor of exactly the token it claimed, at the end of its chain |
| Interleaving.OneSuccessor | src/mxtng_auth/services.py:632-646 | a token has at most one successor, in every interleaving and for good |
| RaceEndings.DeadForGoodIff | src/mxtng_auth/services.py:657-693 | a dead family is dead in every continuation if and only if no rotation of it is between its commits |
| RaceEndings.ReplayInTheGap | src/mxtng_auth/services.py:657-693 | replaying a token between the commits of its own rotation kills the family, and finishing the rotation brings it back |
| RaceEndings.ClaimAnswers | src/mxtng_auth/services.py:632-680 | every way a claim can go in any interleaving, in the order of the source, with no effect unless it wins or detects reuse |
| RaceEndings.EndedSessionNeverRotates | src/mxtng_auth/services.py:674-678 | in every interleaving no token of an ended session's family wins a rotation |
| RaceSweeps.SweptForGoodIff | src/mxtng_auth/services.py:681-751 | a credential swept of everything holds nothing in every continuation without a new sign-in if and only if no rotation of it is between its commits |
| RaceSweeps.DisabledForGoodIff | src/mxtng_auth/services.py:919-923 | a disabled credential holds nothing in every continuation if and only if no rotation of it is between its commits |
| RaceSweeps.DisableInTheGap | src/mxtng_auth/services.py:681-693 | begin to refresh an orphan token that can be won, disable its holder, finish: the credential is disabled, held nothing in between, and has a live session |
| RaceSweeps.DisabledNeverRotates | src/mxtng_auth/services.py:670-672 | in every interleaving no token of a disabled credential wins a rotation |
| RaceSessions.RacePotential | src/mxtng_auth/services.py:522-694 | under the policy and in every interleaving, live sessions plus orphan families and families held by rotations that will adopt them never exceed one plus those of the start |
| RaceSessions.AtMostOneInTheRace | src/mxtng_auth/services.py:522-694 | with nothing to adopt at the start, no two sessions of a credential are ever live together, however requests race |
| RaceProvenance.GrantsKeepIdentity | src/mxtng_auth/services.py:681-691 | in every interleaving all grants in a family, by sign-in or by rotation, carry the same sub, aud and sid |
| RaceProvenance.EmptyRaceIsOrderly | src/mxtng_auth/services.py:632-694 | an empty deployment satisfies what every theorem about interleavings assumes |
| OAuthStates.BurnedAtMostOnce | src/mxtng_auth/services.py:850-864 | no two callbacks are accepted on one state, however updates, commits, aborts and purges interleave |
| OAuthStates.GoneForGood | src/mxtng_auth/services.py:850-863 | once a callback with a state is not refused for it, every later callback of every run with that state is |
| OAuthStates.AcceptedOnceInTime | src/mxtng_auth/services.py:826-864 | after a state is issued, a callback with it is accepted if and only if it comes before the deadline and none with it came earlier, whatever else ran |
| OAuthStates.PurgeIsInvisible | src/mxtng_auth/services.py:867-870 | purging at any point of a run changes no later answer of any request |
| OAuthStates.StartIssues | src/mxtng_auth/services.py:826-836 | starting always issues a state never issued before, which waits until its deadline |
| OAuthStates.PurgeLeaves | src/mxtng_auth/services.py:867-870 | a purge leaves exactly the states whose deadline has not passed |
| OAuthStates.PurgeBoundsTheTable | src/mxtng_auth/services.py:867-870 | after any run of a new deployment, a purge leaves at most as many states as were issued in the last OAUTH_STATE_TTL_SECONDS |
| OAuthStates.UndisturbedClaimConsumes | src/mxtng_auth/services.py:839-864 | a callback with nothing in between is accepted, in the race, exactly when the serial one is, and leaves the same rows |
| OAuthStates.AbortLeavesTheState | src/mxtng_auth/services.py:859-864 | a callback that claims and aborts leaves the race as it was |
| Introspection.AnswersInOrder | src/mxtng_auth/services.py:478-497 | the batch answer has exactly the ids of the input whose session exists and is not revoked, once each, in order of first occurrence; the same as asking one by one |
| Introspection.OnlyOneAnswer | src/mxtng_auth/services.py:496-497 | those three properties leave one possible answer |
| Orphans.OrphanIsLinked | tests/test_single_session.py:153-168 | the forged pre-session store satisfies the invariant |
| Orphans.OrphanSimulates | tests/test_single_session.py:153-168 | the forged token is one more chain of the abstract machine, current and live |
| Orphans.OrphanCounts | tests/test_single_session.py:153-168 | the forged token is exactly one more orphan of its holder, the earlier ones kept, none of anybody else's, and no live session |
| Orphans.OrphanRaces | tests/test_single_session.py:153-168 | an interleaving with the forged token added keeps what the theorems about interleavings assume |
| ResetTokens.ConfirmedOnceInTime | src/mxtng_auth/services.py:755-822 | after a reset token is issued, confirming with it succeeds if and only if its deadline has not passed and nobody confirmed with it earlier, whatever else ran |
| ResetTokens.ResetRequested | src/mxtng_auth/services.py:755-778 | a known account gets a new reset token of its own; for an unknown one nothing happens |
| ResetTokens.ResetReplacesPassword | src/mxtng_auth/services.py:755-822 | a token requested for an account and confirmed, whatever runs in between, lifts that account's lock and puts the new password in the place of the old |
| RateLimit.Limiter.Hit | src/mxtng_auth/ratelimit.py:58-69 | sweep, then open or count the slot's window, and answer |
| RateLimit.SweepIsInvisible | src/mxtng_auth/ratelimit.py:58-80 | for every sequence of hits over any slots, each is answered as its slot alone and unswept would answer |
| RateLimit.WindowsStayYoung | src/mxtng_auth/ratelimit.py:71-80 | after every hit all stored windows are younger than two window lengths |
| RateLimit.SlidingRateBound | src/mxtng_auth/ratelimit.py:58-69 | any span of T seconds admits at most limit * (floor(T / W) + 2) requests of a slot |
| RateLimit.WindowBound | src/mxtng_auth/ratelimit.py:58-69 | any half-open interval of one window length admits at most twice the limit |
| RateLimit.RefusedOnlyWhenFull | src/mxtng_auth/ratelimit.py:58-69 | a hit is refused only where its slot had exactly the limit admitted since a hit less than one window length before |
| Base64Url.UintRoundTrip | src/mxtng_auth/signer.py:27-29 | every value is encoded, and decoding the text gives big-endian octets of the value without a leading zero |
| Base64Url.TextRoundTrip | src/mxtng_auth/signer.py:29 | the text is in the URL-safe alphabet, unpadded, and decodes to the octets |
| Base64Url.UintMinimal | src/mxtng_auth/signer.py:28 | no shorter string of octets denotes the value |
| Base64Url.UintInjective | src/mxtng_auth/signer.py:27-29 | different values have different texts |
| Base64Url.EmptyTextIffZero | src/mxtng_auth/signer.py:27-29 | the text is empty exactly for zero |
| Base64Url.TestVectors | src/mxtng_auth/signer.py:29 | the text of RFC 4648's own examples, and of octets that need the URL-safe symbols |
| Base64Url.ExponentText | src/mxtng_auth/signer.py:27-29 | 65537 is "AQAB", as RFC 7518 has it |

## Left out

- HTTP routing, cookies, headers, CORS, schemas, settings validation, start-up checks and migrations.
- Mail rendering and transport, webhooks, the Google code exchange: delivery and Google's answer are inputs.
- bcrypt, SHA-256, RSA, JWT signing and randomness: see the choices above; a minted access token is its `sub`, `aud` and `sid`, without `exp` and email.
- Email addresses: uniqueness, normalisation, `change_email`, sign-up idempotency and Google linking; a credential is only created and found by id.
- Labels no decision reads: audit log, IP, user agent, `last_seen_at`, `email_verified_at`, `created_at` of rows other than challenges.
- Rows are values in maps that the class reassigns, so aliasing of loaded row objects is not modelled.
- Interleavings inside handlers other than `rotate_refresh` and `consume_oauth_state`: each of those is one atomic step, although the source commits more than once in some of them.
- Requests interleaved with a rotation are atomic, and a rotation never enters as one step there: it begins and finishes.
- The limiter reads its clock before it takes its lock; hits are taken here in the order of their readings, with one window length for all callers and, for the bounds, limits of at least one.
- RateLimit.SlidingRateBound: a stretch that spans a call of `reset` is not covered.
