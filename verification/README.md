# Verified model of the authentication server's core protocols

This project models the parts of a Go authentication library in which correctness
depends on many guards acting together, and proves what those guards add up to.
Each Dafny file is one module; the Go file and lines that a member models are in
the table below.

- **Organizations** (`OrgTables`, `OrgHandlers`, `OrgStore`, `OrgPlugin`, `OrgMembers`,
  `OrgSlugs`, `OrgInvitations`, `OrgTeams`, `OrgRoles`, `OrgRuns`, `OrgFacts`,
  `OrgCreators`, `OrgPermissions`, `OrgAnswers`, `OrgEffects`, `OrgScenarios`). Eighteen
  handlers over six tables. `OrgHandlers` gives each handler as a step on the tables: the
  same checks in the same order, the same writes, the same error codes. `OrgPlugin` is the
  class that does the work with loops over the rows and is proved to perform exactly those
  steps. Three modules say what the steps are for, in terms of the rows and without the
  handlers' own checks: which permission each request needs and that none reaches beyond
  its organization (`OrgPermissions`), exactly when it succeeds (`OrgAnswers`), and what it
  then leaves (`OrgEffects`). The others prove invariants table by table, put them together
  over every run, and draw consequences for single invitations, for the rows of a team and
  for the creator role. `OrgScenarios` gives short concrete runs that show where these
  theorems stop.
- **Trusted origins** (`Origin`): the greedy wildcard scan decides glob matching.
- **Timed protocols**: second factors (`TwoFactor`, `TwoFactorAnswers`,
  `TwoFactorSafety`, `TwoFactorTight`), one-time codes (`OneTimeCode`), sessions with
  refresh and a replayable cache cookie (`Sessions`, `SessionAnswers`, `SessionSafety`),
  and the fixed-window limiter (`RateLimit`, `RateLimitExact`). The modules called
  `Answers` say what a handler makes of each request, in terms of the stored rows; the
  others bound what can happen over runs. The quantitative bounds share one fact about
  logs of event times (`Spacing`).
- **Hooked store** (`HookedStore`, `HookedAnswers`): per-row deletion loops with vetoes
  and errors against the bulk calls that they replace.
- **Codecs**: comma lists of roles and teams (`RoleCodec`), signed cookies
  (`SignedCookie`), decimal printing and parsing (`Decimal`), permission evaluation
  (`Access`), and the string functions they use (`Strings`). `Common` holds what several
  modules share.

## How to read it

Handlers that change state are classes whose methods are proved equal to a step function
on values; theorems about runs are lemmas about those step functions. A run is an
arbitrary sequence of requests by arbitrary callers.

Assumptions, all of them visible in the code:

- A handler is one atomic step and the clock does not go back between requests.
  Times are integers in one unit per module.
- Generated ids are fresh (`Config.FreshIds`, `NeverCreated`, `NeverBegun`).
- Stores do not fail, except where failure is the subject: the hooked store, and the
  member and seat writes of `accept-invitation`. A verification row is replaced when
  its identifier is written again.
- HMAC is an unknown function with base64 output; a cache cookie decodes iff it was
  issued, and a client may present any issued cookie at any time.
- Organization hooks and the function-valued limits are not set. The creator role is
  trimmed and comma-free where a theorem needs it (`OrgRuns.Sound`); `FoundedHasCreator`
  shows that this is exactly what a new organization needs. What "lower case" and "valid
  e-mail" mean is a parameter, so the theorems hold for any choice.
- The peer address that the HTTP server reports has no comma and no outer spaces
  (`RateLimit.Plain`); what a forwarding header says is arbitrary.
- Users, their e-mail addresses and whether they are verified may change arbitrarily
  between requests.

## What the proofs brought to light

- The limiter's true bound is one less than twice the maximum, and it is met
  (`LessThanTwiceTheMaximum`, `BoundIsMet`). It holds for every address, also one that
  contains the vertical bar that joins address and rule in a counter key. What can break
  it is the configuration: two rule keys of which one ends in a bar and the other, with
  windows of different lengths, while addresses are told apart. `BoundHoldsExactly` gives
  the exact condition, and `BoundCanBreak` a configuration that fails it.
- `itoa` prints every int64 canonically except the minimum, whose negation overflows.
- A signed value containing a percent sign survives exactly when it is not a well-formed
  string of escapes (`RoundTrip`).
- The limit of users per team holds, but the limit of rows does not: `add-member` with a
  team adds a second row for a user who left the organization and kept the seat
  (`RowsCanExceedTheLimit`). Rows stay within the limit as long as this does not happen
  (`RowsStayWithinLimit`), and `AddMemberMayDoubleRows` says when one call exceeds it.
- A refused request can change the tables. A re-invitation that cancels the earlier
  invitation and then fails a later check leaves the cancellation
  (`RefusedInviteMayCancel`, `RefusedInviteCanCancel`); an acceptance in which a seat
  cannot be written leaves the seats before it, to a user who is not a member
  (`RefusedAcceptMayLeaveSeats`, `RefusedAcceptCanLeaveSeats`).
- `cancel-invitation` also cancels an accepted invitation, and the member stays; in
  no other way can it stop being accepted while it is there (`AcceptedUnlessCancelled`,
  `AcceptedInvitationCanBeCancelled`).
- Updating an organization without naming a slug keeps the slug in the SQL store and
  blanks it in the memory store, where a second such update of another organization is
  then refused (`UpdateMayBlankSlug`).
- After a session is deleted, a replayed cache cookie can keep resolving it until its last
  stored expiry and is renewed on each use (`DeletedSessionLingers`,
  `LastMomentIsReached`); requests that bypass the cache never resolve it.
- The access-control helper refuses requests that ask for nothing; the organization
  plugin's own evaluator grants them (`EvaluatorsAgree`).

## Model

| member | source | states |
|---|---|---|
| `Origin.MatchOriginPattern` | auth/origin.go:25-55 | the greedy scan answers true exactly for the origins in the glob language of the pattern, for all strings |
| `Origin.StarredIsAnchored` | auth/origin.go:34-36 | a pattern with a star means: its literals in order, disjoint, the first at the start and the last at the end |
| `Origin.EarlierPlaceServes` | auth/origin.go:40-51 | exchange argument: a literal placed late can be moved to any earlier occurrence |
| `Origin.LeftmostSuffices` | auth/origin.go:40-51 | a placement of the remaining literals exists iff one exists after the leftmost occurrence of the next literal |
| `Origin.SuffixBeyond` | auth/origin.go:51-53 | the final suffix test on the whole origin equals a suffix test beyond the last placed literal |
| `Origin.PlaceNext` | auth/origin.go:37-50 | one turn of the loop: skip, fail and advance each keep or decide membership in the language |
| `Origin.AllPlaced` | auth/origin.go:51-54 | once all literals are placed, membership is the closing suffix test |
| `Origin.TrustedOrigins.constructor` | auth/config.go:359-370 | configured origins are filed as exact ones or patterns so that the list is trusted as configured |
| `Origin.TrustedOrigins.IsTrusted` | auth/origin.go:8-23 | an origin is trusted iff it is listed or in the language of a listed pattern |
| `Decimal.PrintInt` | auth/ratelimit.go:102-122 | the loop never leaves its 20-byte buffer on any int64, and the text is the canonical decimal for every int64 but the minimum, where it is a lone sign |
| `Decimal.WriteDigits` | auth/ratelimit.go:110-116 | the digits are written backwards, at most 19 of them, leaving room for a sign |
| `Decimal.ParseDigits` | provider/oauth2provider/discord.go:66-75 | the parser rejects exactly the non-digit texts and otherwise returns the value modulo 2^64 |
| `Decimal.PrintThenParse` | provider/oauth2provider/discord.go:66-75 | parsing what was printed gives the number back for all 0 <= n <= MaxInt64 |
| `Decimal.AtoiItoa` | plugins/emailotp.go:567-586 | library decimal printing and parsing are inverse on int64 |
| `RateLimit.Resolve` | auth/ratelimit.go:26-45 | resolved limits always have a positive window and maximum |
| `RateLimit.LimitDefaults` | auth/ratelimit.go:26-45 | settings that are made apply as they are; otherwise a hundred requests a minute |
| `RateLimit.RuleFor` | auth/ratelimit.go:50-74 | whatever the map order, the bucket key is one the path may be filed under and alone determines window and maximum |
| `RateLimit.LimitOfPath` | auth/ratelimit.go:50-74 | a path with a rule of its own is under that rule, one that is only covered under a pattern that covers it, any other under the general limits; a rule sets what is positive in it |
| `RateLimit.ServedPathsAreTexts` | auth/router.go:64-67 | the limiter sees every non-empty text as a path, also one that ends in a slash |
| `RateLimit.ServedPathDropsSlashes` | auth/router.go:64-67 | one slash at the end is dropped, with the option one more, and nothing else changes but the empty path |
| `RateLimit.ClientIP` | auth/context.go:137-160 | the first configured header with a value decides: what is in front of its first comma, trimmed; else the peer without its port; nothing when tracking is off |
| `RateLimit.AddressFrom` | auth/context.go:137-160 | the address is the text in front of the first comma of the first header that has a value, the host of the peer without one, and empty with tracking off |
| `RateLimit.HostIsBeforeLastColon` | auth/context.go:137-160 | the host of a peer is what is in front of its last colon |
| `RateLimit.AddressesOfCallers` | auth/context.go:137-160 | the addresses that can arise are exactly the trimmed texts without a comma, or none with tracking off |
| `RateLimit.SharedCounter` | auth/ratelimit.go:86-91 | two address and rule pairs share a counter iff client and rule agree, or one rule key ends in a bar and the other and the shorter key's address is the other's with the missing part behind a bar |
| `RateLimit.KeysMeetExactly` | auth/ratelimit.go:86-91 | two different rule keys meet in a counter, for some addresses that can arise, iff tracking is on, one ends in a bar and the other, and an address can end in what is in front |
| `RateLimit.RuleKeysAreUsed` | auth/ratelimit.go:50-74 | the rule keys of the configuration are exactly those that some served path is filed under |
| `RateLimit.BarFreeKeysAreUndisturbed` | auth/ratelimit.go:86-91 | with rule keys without a bar no rule is disturbed, whatever the addresses contain |
| `RateLimit.Limiter.constructor` | auth/ratelimit.go:136-138 | a new limiter has no counters |
| `RateLimit.Limiter.Incr` | auth/ratelimit.go:140-151 | the counter is bumped, or restarted when the reset time has passed; no other counter moves |
| `RateLimit.Limiter.Allow` | auth/ratelimit.go:78-100 | a request is turned away exactly when its window is still open and already full |
| `RateLimit.Limiter.Serve` | auth/router.go:56-84 | a request is limited under its normalized path and the address of its caller |
| `RateLimit.ForeignHit` | auth/ratelimit.go:140-151 | a request under another rule that shares the counter keeps what it remembers, if its window is not more than a nanosecond shorter |
| `RateLimit.OneMoreHit` | auth/ratelimit.go:140-151 | each request, by any address, keeps what the counter remembers about earlier admissions |
| `RateLimit.RunExplained` | auth/ratelimit.go:78-151 | over every run by any addresses, admissions under an undisturbed rule of which 2*max-1 lie between are further apart than the window |
| `RateLimit.LessThanTwiceTheMaximum` | auth/ratelimit.go:78-151 | for every address, no closed interval of a window's length admits 2*max requests under an undisturbed rule |
| `RateLimit.BoundIsMet` | auth/ratelimit.go:140-151 | a run that admits exactly 2*max-1 requests in such an interval |
| `RateLimitExact.CrowdedRunBreaks` | auth/ratelimit.go:140-151 | the run in which an overlapping rule reopens the counter early admits 2*max requests in one window |
| `RateLimitExact.BoundHoldsExactly` | auth/ratelimit.go:78-151 | a rule keeps its bound over all runs of requests that can arise, for all addresses, iff its maximum is 1, tracking is off, or no overlapping key of the configuration has a window more than a nanosecond shorter |
| `RateLimitExact.BoundCanBreak` | auth/ratelimit.go:86-91 | a configuration in which the bound fails |
| `Spacing.WindowBound` | auth/ratelimit.go:140-151 | events of which every m-th lie d apart number at most m*(span/d+1) in a closed window |
| `RoleCodec.NormalizeMemberRoles` | plugins/organization.go:2371-2385 | joins all trimmed non-empty pieces in order; refuses when there are none |
| `RoleCodec.MemberHasRole` | plugins/organization.go:2387-2394 | decides whether some trimmed piece equals the role |
| `RoleCodec.NormalizationIsFaithful` | plugins/organization.go:2371-2394 | a normalized value names exactly the requested non-empty pieces, and normalizing again changes nothing |
| `RoleCodec.NameNamesItself` | plugins/organization.go:2387-2394 | a name given as role value names itself iff it is trimmed and comma-free |
| `RoleCodec.PiecesOfJoin` | plugins/organization.go:2371-2394 | joining clean names and splitting them gives the names back |
| `RoleCodec.NormalizeTeamIds` | plugins/organization.go:1529-1547 | trimmed, non-empty, first occurrences in order; refused iff some id contains a comma |
| `RoleCodec.InvitationTeamIds` | plugins/organization.go:1680-1693 | the trimmed non-empty pieces of the stored text |
| `RoleCodec.TeamIdsRoundTrip` | plugins/organization.go:1437 | reading back the stored team list gives the normalized request: exactly its ids, each once |
| `Access.ActionsAllowed` | plugins/access.go:81-99 | all of a non-empty list are allowed, or some, by connector |
| `Access.Authorize` | plugins/access.go:36-64 | the verdict is a property of the request, independent of map order |
| `Access.PermissionAllows` | plugins/organization.go:3149-3162 | every requested action of every requested resource is allowed |
| `Access.EvaluatorsAgree` | plugins/organization.go:3149-3162 | AND agrees with the organization's evaluator exactly on non-empty requests with non-empty action lists |
| `Access.AndImpliesOr` | plugins/access.go:36-64 | whatever AND grants, OR grants |
| `SignedCookie.VerifyAny` | internal/cookie/cookie.go:110-118 | a cookie opens to a value iff some listed secret signs that very value, whichever is tried first, and is rejected iff none does |
| `SignedCookie.OpensExactlyIfSigned` | internal/cookie/cookie.go:119-142 | a cookie opens to a value iff the value is not empty and the presented text is value, dot and the value's own signature |
| `SignedCookie.UnescapeEscape` | internal/cookie/cookie.go:120-126 | unescaping gives back any text of bytes, whichever characters were escaped |
| `SignedCookie.BadEscapeSpoils` | internal/cookie/cookie.go:120-126 | an escape cut short or with other digits makes the text stand as it came |
| `SignedCookie.RoundTrip` | internal/cookie/cookie.go:102-142 | a signed value verifies to itself iff it is non-empty and not a well-formed string of escapes with a percent sign |
| `SignedCookie.SignThenVerifyAny` | internal/cookie/cookie.go:102-142 | a cookie signed under any listed secret verifies to its value |
| `SignedCookie.VerifyAfterRotation` | auth/config.go:322 | a secret added in front keeps every accepted cookie accepted with the same value |
| `SignedCookie.UnescapeAppend` | internal/cookie/cookie.go:120-126 | unescaping the whole cookie is unescaping the value before the signature |
| `SignedCookie.LastDotBeforeSignature` | internal/cookie/cookie.go:127-131 | the last dot is the one before the signature, so values may contain dots |
| `OneTimeCode.CodeStore.Issue` | auth/plugin_api.go:160-170 | a new code replaces the old row, with no tries and a fresh expiry |
| `OneTimeCode.CodeStore.SendCode` | plugins/emailotp.go:377-414 | the row is written first and taken back when there is nobody to send to |
| `OneTimeCode.CodeStore.SaveTries` | plugins/emailotp.go:579-586 | a failed try rewrites the count and leaves the expiry alone |
| `OneTimeCode.CodeStore.VerifyCode` | plugins/phonenumber.go:471-506 | the handler's checks in order: missing, expired, exhausted, mismatch, accepted |
| `OneTimeCode.CheckAnswers` | plugins/emailotp.go:416-455 | a code is accepted iff it is in time, has tries left and is guessed; a wrong guess costs a try, anything else the row |
| `OneTimeCode.NumericCode` | plugins/emailotp.go:588-597 | generated codes are digits, hence colon-free |
| `OneTimeCode.SplitInvertsEncode` | plugins/emailotp.go:567-577 | the text code:tries splits back iff the code has no colon |
| `OneTimeCode.CheckRefines` | plugins/emailotp.go:416-455 | the text-encoded row refines an abstract record of code, tries and expiry |
| `OneTimeCode.IssuedCodeSafety` | plugins/emailotp.go:416-455 | over every run an issued code sees at most the allowed mismatches, at most one consuming success, none late or for another code, and no change of expiry |
| `TwoFactor.ResolveLockout` | plugins/twofactor.go:589-609 | lockout defaults: positive maximum and duration, off only on request |
| `TwoFactor.IdentifiersApart` | plugins/twofactor.go:516-525 | challenge, attempt and code identifiers never collide, nor those of sessions and challenges |
| `TwoFactor.Plugin.CreateChallenge` | auth/two_factor_challenge.go:177-194 | a challenge starts with ten minutes and no tries |
| `TwoFactor.Plugin.ResolveChallenge` | auth/two_factor_challenge.go:82-119 | a cookie resolves iff its challenge is there, not expired and its user exists; otherwise the row goes |
| `TwoFactor.Plugin.CompleteChallenge` | auth/two_factor_challenge.go:122-152 | the challenge and its tries are consumed and a session is issued for its user |
| `TwoFactor.Plugin.AssertNotLocked` | plugins/twofactor.go:611-626 | locked accounts are refused; an expired lock is lifted |
| `TwoFactor.Plugin.RecordFailure` | plugins/twofactor.go:628-645 | the count goes up and locks at the maximum |
| `TwoFactor.Plugin.ResetFailures` | plugins/twofactor.go:647-658 | count and lock are cleared |
| `TwoFactor.Plugin.AssertAttemptAvailable` | plugins/twofactor.go:664-690 | a full, unreadable, negative, missing or expired count cancels the challenge |
| `TwoFactor.Plugin.RecordAttempt` | plugins/twofactor.go:692-716 | one more try with the same expiry |
| `TwoFactor.Plugin.HandleVerifyTotp` | plugins/twofactor.go:211-284 | the handler is the step VerifyTotp |
| `TwoFactor.Plugin.HandleSendOtp` | plugins/twofactor.go:285-308 | the handler is the step SendOtp |
| `TwoFactor.Plugin.HandleVerifyOtp` | plugins/twofactor.go:309-378 | the handler is the step VerifyOtp |
| `TwoFactor.Plugin.TakeCode` | plugins/twofactor.go:409-417 | finds the code iff present and drops exactly its first occurrence |
| `TwoFactor.Plugin.HandleVerifyBackupCode` | plugins/twofactor.go:379-447 | the handler is the step VerifyBackupCode |
| `TwoFactor.Plugin.HandleEnable` | plugins/twofactor.go:122-137 | a new record replaces the old one with a clean slate |
| `TwoFactor.Plugin.HandleDisable` | plugins/twofactor.go:165-168 | the record goes |
| `TwoFactor.Plugin.HandleGenerateBackupCodes` | plugins/twofactor.go:469-482 | only the backup codes are replaced |
| `TwoFactorAnswers.TotpAnswers` | plugins/twofactor.go:211-284 | a pending challenge in time, of a verified record without a lock and with a try left: only a matching code issues the session, a differing one is counted, a failing comparison costs nothing |
| `TwoFactorAnswers.TotpRefuses` | plugins/twofactor.go:211-284 | without any one of these conditions the answer is refused, whatever the code |
| `TwoFactorAnswers.TotpOfSignedIn` | plugins/twofactor.go:211-284 | a signed-in caller passes iff the code matches, and only that confirms the second factor |
| `TwoFactorAnswers.DeadChallengeGoes` | auth/two_factor_challenge.go:82-119 | answering a challenge that is over, or whose user is gone, removes it and nothing else |
| `TwoFactorAnswers.LockedIsUntouched` | plugins/twofactor.go:611-626 | while the account is locked no answer of any kind is compared and nothing changes |
| `TwoFactorAnswers.ExhaustedGoes` | plugins/twofactor.go:664-690 | a challenge without a readable try left is cancelled with its tries |
| `TwoFactorAnswers.BackupCodeAnswers` | plugins/twofactor.go:379-447 | on such a challenge one of the user's codes issues the session and is used up, any other text is counted |
| `TwoFactorAnswers.BackupCodeRefuses` | plugins/twofactor.go:379-447 | without the conditions a backup code is refused |
| `TwoFactorAnswers.BackupCodeOfSignedIn` | plugins/twofactor.go:379-447 | a signed-in caller passes iff the code is one of the stored ones, which is used up |
| `TwoFactorAnswers.FirstIsUsed` | plugins/twofactor.go:409-417 | using up a code takes its first occurrence and keeps the others in order |
| `TwoFactorAnswers.SendingLeaves` | plugins/twofactor.go:285-308 | a code goes to the key of a signed-in caller or of a challenge in time and replaces the one before |
| `TwoFactorAnswers.SentCodeAnswers` | plugins/twofactor.go:309-378 | a sent code issues the session iff it is guessed in time with tries left, and is then used up; a wrong guess costs the code a try and is counted |
| `TwoFactorAnswers.SentCodeRefuses` | plugins/twofactor.go:309-378 | no other answer with a sent code issues anything |
| `TwoFactorAnswers.SentCodeOfSignedIn` | plugins/twofactor.go:309-378 | for a signed-in caller the same without counting against the account |
| `TwoFactorAnswers.BeginningLeaves` | auth/two_factor_challenge.go:177-194 | a challenge can be answered for ten minutes and not later, with no tries used |
| `TwoFactorAnswers.EnrollingLeaves` | plugins/twofactor.go:122-137 | enrolling starts with a clean slate and confirms nothing by itself |
| `TwoFactorAnswers.LockoutDefaults` | plugins/twofactor.go:589-609 | ten failures lock for fifteen minutes unless set otherwise |
| `TwoFactorSafety.StepMovesCount` | plugins/twofactor.go:611-658 | a failure count moves only by an admitted wrong code on a pending challenge, an expired lock or a success |
| `TwoFactorSafety.CountsStayBounded` | plugins/twofactor.go:628-645 | every step keeps count <= max, with count = max iff locked |
| `TwoFactorSafety.CountsStayBoundedOverRuns` | plugins/twofactor.go:628-645 | and so does every run |
| `TwoFactorSafety.FailuresAreSpaced` | plugins/twofactor.go:611-645 | failures of one user of which max-1 lie between are a full lock apart |
| `TwoFactorSafety.LockoutBound` | plugins/twofactor.go:611-645 | wrong TOTP, sent and backup codes on pending challenges within span T number at most max*(T/duration+1) |
| `TwoFactorTight.LockoutBoundIsMet` | plugins/twofactor.go:611-645 | for all settings and spans a run gets exactly that many codes wrong, with a new challenge for each |
| `TwoFactorSafety.ChallengeSafety` | plugins/twofactor.go:664-721 | one challenge: at most the allowed wrong TOTP or backup codes, at most one completion, in time and for its user |
| `TwoFactorSafety.GoneChallengeStaysGone` | plugins/twofactor.go:718-721 | a cancelled, completed or expired challenge is over for good |
| `TwoFactorSafety.CodeRowMoves` | plugins/twofactor.go:747-804 | comparing a sent code is the one-time-code protocol on its row, and nothing else touches the row |
| `TwoFactorSafety.SentCodeSafety` | plugins/twofactor.go:747-804 | one sent code: at most the allowed mismatches, at most one acceptance, none late or of another code |
| `TwoFactorSafety.BackupCodesConserved` | plugins/twofactor.go:403-441 | until codes are replaced, accepted plus remaining backup codes are the initial ones as a multiset |
| `Sessions.Auth.CreateSession` | auth/session.go:11-53 | the row expires after the session or the don't-remember age; it is cached if the user exists |
| `Sessions.Auth.SetSessionCache` | auth/session_resolve.go:37-56 | a cookie with the session and a fresh cache window is issued |
| `Sessions.Auth.SessionFromCache` | auth/session_resolve.go:58-78 | a cookie serves iff it was issued and neither its window nor its session has passed |
| `Sessions.Auth.RefreshSession` | auth/session_resolve.go:98-116 | the row's expiry becomes now plus the session age |
| `Sessions.Auth.ResolveSession` | auth/session_resolve.go:119-179 | the method is the step Resolve and writes a refresh exactly when Refreshes says so |
| `Sessions.Auth.HandleGetSession` | auth/routes_session.go:15-56 | the answer of the session endpoint, with at most one refresh |
| `Sessions.OnlyDeferredReadsNeedRefresh` | auth/routes_session.go:43-53 | the refreshing branch of a POST cannot be reached |
| `Sessions.DeferredReadsLeaveStore` | auth/session_resolve.go:149-163 | a deferred read never writes the store |
| `Sessions.Auth.HandleUpdateSession` | auth/routes_session.go:78-117 | client data change, the expiry does not |
| `Sessions.Auth.HandleRevokeSession` | auth/routes_session.go:122-140 | only a session of the same user is deleted |
| `Sessions.Auth.HandleRevokeSessions` | auth/routes_session.go:142-153 | all sessions of the user are deleted |
| `Sessions.Auth.HandleRevokeOtherSessions` | auth/routes_session.go:155-165 | all but the caller's session are deleted |
| `SessionAnswers.WhoIsResolved` | auth/session_resolve.go:119-179 | a caller is resolved iff the cookie is issued, in time and needs no refresh first, or the token has a row in time whose user exists |
| `SessionAnswers.RowAnswers` | auth/session_resolve.go:142-179 | without such a cookie the answer is the row, its expiry moved iff a refresh is due and not put off, and a cookie is issued; nothing else changes |
| `SessionAnswers.CookieAnswers` | auth/session_resolve.go:123-141 | with one, its session is served, the rows are left alone and the cookie is renewed |
| `SessionAnswers.UselessCookie` | auth/session_resolve.go:123-141 | a cookie that cannot be used is as good as none |
| `SessionAnswers.RefusalLeaves` | auth/session_resolve.go:142-157 | a refusal removes the row of the token iff it has expired and the request is no deferred read |
| `SessionAnswers.SignInLeaves` | auth/session.go:11-53 | a sign-in stores a session of the right age and caches it for a user who exists |
| `SessionAnswers.UpdateAnswers` | auth/routes_session.go:78-117 | updating succeeds iff the caller's session has a row, changes its client data and no other row |
| `SessionAnswers.RevokeAnswers` | auth/routes_session.go:122-140 | of a caller with a good row, the named session goes iff it is the same user's, and every other stays |
| `SessionAnswers.RevokeManyAnswers` | auth/routes_session.go:142-165 | all sessions of the caller's user go, or all but the caller's own, and no other |
| `SessionAnswers.StrangersRevokeNothing` | auth/routes_session.go:122-165 | without a good row nothing is revoked, whatever cookie is shown |
| `SessionAnswers.SessionLasts` | auth/session_resolve.go:119-179 | through every run that does not take it away, a session resolves for its token until the age given at sign-in has passed |
| `SessionSafety.StepIsTraced` | auth/session_resolve.go:37-56 | every issued cookie carries a token and expiry that the store once held |
| `SessionSafety.ResolvedWasHeld` | auth/session_resolve.go:58-78 | over every run with replayed cookies, a resolved session has an expiry the store held for its token and is unexpired, unless just refreshed under a negative session age |
| `SessionSafety.DeletedIsNotHeld` | auth/session_resolve.go:119-179 | a deleted token is never held again |
| `SessionSafety.DeletedSessionDies` | auth/session_resolve.go:58-78 | after deletion only a replayed cookie resolves the token, until an expiry held before at the latest, earlier for refreshing requests, and never past a disabled cache |
| `SessionSafety.VisitsResolve` | auth/session_resolve.go:131-141 | a client that comes back within each cache window is resolved on every visit, without the row |
| `SessionSafety.DeletedSessionLingers` | auth/session_resolve.go:131-141 | from sign-in through deletion and any such series of visits, deferred or not, every one resolves the deleted session up to the last moment allowed |
| `SessionSafety.LastMomentIsReached` | auth/session_resolve.go:58-78 | and a series of visits reaches exactly that moment |
| `SessionSafety.StepMovesExpiry` | auth/session_resolve.go:80-89 | a row's expiry moves only by a due refresh, to now plus the session age |
| `SessionSafety.RefreshBound` | auth/session_resolve.go:98-117 | refreshes of a session lie the update age apart: at most span/updateAge+1 in any span |
| `HookedStore.Store.ListSessions` | store/store.go:32 | the base store's list: each session of the user once, in any order |
| `HookedStore.Store.DeleteSessionWithHooks` | auth/hooked_store.go:166-191 | before-hook, deletion, after-hook, with veto and errors, as DeleteOne says |
| `HookedStore.Store.DeleteSessionsByUserId` | auth/hooked_store.go:197-214 | without hooks the bulk call, with hooks the loop over exactly the listed non-excepted sessions |
| `HookedStore.Store.DeleteAllSessionsByUserId` | auth/hooked_store.go:216-230 | the same without an exception |
| `HookedStore.LoopSessions` | auth/hooked_store.go:205-212 | exactly the rows with a deleting result are gone |
| `HookedStore.LoopLog` | auth/hooked_store.go:166-191 | hooks hear of the rows in list order, before then after, once each, after only for deleted rows |
| `HookedStore.LoopEffect` | auth/hooked_store.go:197-214 | both together, up to and including the first error and nothing beyond it |
| `HookedStore.LoopIsBulk` | auth/hooked_store.go:197-214 | without veto and error the loop equals the bulk call |
| `HookedAnswers.OneDecided` | auth/hooked_store.go:166-191 | a row stays iff the before-hook was asked and did not let it go, or the deletion failed; the call fails iff a hook or the deletion does |
| `HookedAnswers.LoopRemoves` | auth/hooked_store.go:197-214 | the loop removes exactly the rows that it reaches and that the hooks, with the log as it is by then, and the deletion let go |
| `HookedAnswers.LoopEnds` | auth/hooked_store.go:197-214 | the loop goes through exactly if it comes to no row with a failing before-hook, deletion or after-hook |
| `HookedAnswers.OnlyVetoesKeep` | auth/hooked_store.go:197-214 | then the end store is the start store less the user's non-excepted sessions whose hook did not veto |
| `OrgTables.RoleTable` | plugins/organization.go:3186-3192 | configured roles override the built-in ones |
| `OrgTables.OptionDefaults` | plugins/organization.go:901-957 | an owner as creator, a hundred members, a hundred live invitations and two days for each, unless set otherwise |
| `OrgStore.FindMemberByOrgAndUser` | store/memory/extstore.go:149-158 | the one member row of the organization and user, if any |
| `OrgStore.CountCreators` | plugins/organization.go:2396-2404 | the number of members with the creator role |
| `OrgStore.HasPermissions` | plugins/organization.go:3102-3117 | permitted iff some named role, static or own, grants the request |
| `OrgStore.AllRolesExist` | plugins/organization.go:3127-3147 | every named role is static or, with dynamic roles on, defined by the organization |
| `OrgStore.FindLiveInvitation` | plugins/organization.go:1499-1512 | the one live invitation of the recipient, if any |
| `OrgStore.CountLive` | plugins/organization.go:962-975 | the number of live invitations of the organization |
| `OrgStore.TeamLimitReached` | plugins/organization.go:1114-1137 | full iff limited, the user has no seat, and the rows reach the limit |
| `OrgStore.AnyTeamLimitReached` | plugins/organization.go:1139-1147 | some listed team is full |
| `OrgStore.AllTeamsBelong` | plugins/organization.go:1549-1558 | all listed teams exist in the organization |
| `OrgPlugin.Plugin.HandleCreate` | plugins/organization.go:331-477 | new tables and reply are exactly the step Create on the old tables |
| `OrgPlugin.Plugin.HandleUpdate` | plugins/organization.go:490-600 | new tables and reply are exactly the step Update on the old tables |
| `OrgPlugin.Plugin.HandleDelete` | plugins/organization.go:601-659 | new tables and reply are exactly the step Delete on the old tables |
| `OrgPlugin.Plugin.HandleInvite` | plugins/organization.go:1308-1488 | new tables and reply are exactly the step Invite on the old tables |
| `OrgPlugin.Plugin.HandleAccept` | plugins/organization.go:1560-1678 | new tables and reply are exactly the step Accept on the old tables |
| `OrgPlugin.Plugin.HandleReject` | plugins/organization.go:1764-1820 | new tables and reply are exactly the step Reject on the old tables |
| `OrgPlugin.Plugin.HandleCancel` | plugins/organization.go:1822-1885 | new tables and reply are exactly the step Cancel on the old tables |
| `OrgPlugin.Plugin.HandleAddMember` | plugins/organization.go:1972-2104 | new tables and reply are exactly the step AddMember on the old tables |
| `OrgPlugin.Plugin.HandleRemoveMember` | plugins/organization.go:2106-2197 | new tables and reply are exactly the step RemoveMember on the old tables |
| `OrgPlugin.Plugin.HandleUpdateRole` | plugins/organization.go:2240-2354 | new tables and reply are exactly the step UpdateRole on the old tables |
| `OrgPlugin.Plugin.HandleLeave` | plugins/organization.go:2430-2475 | new tables and reply are exactly the step Leave on the old tables |
| `OrgPlugin.Plugin.HandleCreateTeam` | plugins/organization.go:3203-3299 | new tables and reply are exactly the step CreateTeam on the old tables |
| `OrgPlugin.Plugin.HandleRemoveTeam` | plugins/organization.go:3301-3375 | new tables and reply are exactly the step RemoveTeam on the old tables |
| `OrgPlugin.Plugin.HandleAddTeamMember` | plugins/organization.go:3616-3725 | new tables and reply are exactly the step AddTeamMember on the old tables |
| `OrgPlugin.Plugin.HandleRemoveTeamMember` | plugins/organization.go:3727-3827 | new tables and reply are exactly the step RemoveTeamMember on the old tables |
| `OrgPlugin.Plugin.HandleCreateRole` | plugins/organization.go:2838-2901 | new tables and reply are exactly the step CreateRole on the old tables |
| `OrgPlugin.Plugin.HandleChangeRole` | plugins/organization.go:2903-2955 | new tables and reply are exactly the step ChangeRole on the old tables |
| `OrgPlugin.Plugin.HandleDeleteRole` | plugins/organization.go:2957-3007 | new tables and reply are exactly the step DeleteRole on the old tables |
| `OrgPermissions.MayDoIsGranted` | plugins/organization.go:3102-3126 | the handlers' check holds iff the caller is a member and a role named in the row, static or own, lists the action |
| `OrgPermissions.BuiltInRoles` | plugins/organization.go:3164-3192 | with the built-in roles an owner meets every need, an admin all but deleting the organization, and a plain member none |
| `OrgPermissions.NothingWithoutPermission` | plugins/organization.go:331-3827 | whatever the tables: a request that succeeds or changes anything has the permission that the table of needs lists for it |
| `OrgPermissions.NothingBeyondTheOrganization` | plugins/organization.go:331-3827 | a request leaves the rows and the slug of every other organization as they are |
| `OrgAnswers.UpdateAnswers` | plugins/organization.go:490-600 | an update succeeds iff permitted, the organization exists, and the slug is well formed and nobody else's; lacking only the permission it is forbidden |
| `OrgAnswers.DeleteAnswers` | plugins/organization.go:601-659 | a deletion succeeds iff permitted, not disabled, and the organization exists; a member who lacks only the permission is forbidden |
| `OrgAnswers.InviteAnswers` | plugins/organization.go:1308-1488 | inviting succeeds iff permitted, the roles exist, a creator offers the creator role, the recipient is no member, and there is a live invitation to prolong or room for a new one |
| `OrgAnswers.AcceptAnswers` | plugins/organization.go:1560-1678 | accepting succeeds iff the invitation is pending, in time and the caller's, the caller is no member, organization and teams have room, and the writes succeed |
| `OrgAnswers.CancelAnswers` | plugins/organization.go:1822-1885 | cancelling succeeds iff permitted in the organization of the invitation |
| `OrgAnswers.RemoveMemberAnswers` | plugins/organization.go:2106-2238 | removing succeeds iff permitted and the key names a member, a creator only for a creator and while another one remains |
| `OrgAnswers.UpdateRoleAnswers` | plugins/organization.go:2240-2354 | recasting succeeds iff permitted or asked by a creator, the roles exist, the creator role is touched by creators alone, and the last creator does not drop it |
| `OrgAnswers.LeaveAnswers` | plugins/organization.go:2430-2475 | leaving succeeds iff the caller is a member and not the last creator |
| `OrgAnswers.RemoveTeamAnswers` | plugins/organization.go:3301-3375 | a team is removed iff permitted, the caller has not selected it, and another one remains or none has to |
| `OrgAnswers.RemoveTeamMemberAnswers` | plugins/organization.go:3727-3827 | a seat is removed iff permitted and named by team and user, or by its id, for a member who has it |
| `OrgAnswers.ChangeRoleAnswers` | plugins/organization.go:2903-2955 | an own role is changed iff permitted, named by id or name, and its new name is free |
| `OrgAnswers.DeleteRoleAnswers` | plugins/organization.go:2957-3007 | an own role is deleted iff permitted, named, and no member names it |
| `OrgAnswers.RequestAnswers` | plugins/organization.go:331-3827 | each of the eighteen requests succeeds iff its caller has the permission listed for it and it is otherwise in order, both said of the rows; one lacking only the permission is told that it is forbidden or, as a stranger, that there is no such organization where the code says so |
| `OrgEffects.InvitingLeaves` | plugins/organization.go:1364-1439 | inviting prolongs the live invitation if asked to, else cancels it, and leaves one new invitation that offers just what was asked |
| `OrgEffects.AcceptingLeaves` | plugins/organization.go:1628-1653 | accepting leaves one new member with the offered role, the invitation accepted, and a seat in exactly its teams |
| `OrgEffects.DissolvingLeaves` | store/memory/extstore.go:81-111 | a deleted organization is gone with all its rows but the seats in its teams, and no other row is |
| `OrgEffects.RecastingLeaves` | plugins/organization.go:2315-2340 | the row names exactly the requested roles and no other row has changed |
| `OrgEffects.RequestLeaves` | plugins/organization.go:331-3827 | what each of the eighteen requests leaves in the tables when it succeeds |
| `OrgEffects.EveryRequest` | plugins/organization.go:331-3827 | both together in every state that a run from the empty tables reaches |
| `OrgPlugin.Plugin.CreateDefaultTeam` | plugins/organization.go:1036-1112 | one new team with the founder's seat in it |
| `OrgPlugin.Plugin.CreateTeamMemberships` | plugins/organization.go:1695-1712 | one seat in each listed team where the user has none, up to a failing write |
| `OrgPlugin.Plugin.AdmitMember` | plugins/organization.go:1634-1653 | status, member and seats are written; a failure takes member and status back |
| `OrgPlugin.Plugin.FindRemovableMember` | plugins/organization.go:2210-2238 | by e-mail or by id, within the organization |
| `OrgPlugin.Plugin.Route` | plugins/organization.go:780-822 | any request does exactly its step and keeps every invariant |
| `OrgMembers.RemoveMemberKeepsMembers` | plugins/organization.go:2149-2164 | removal leaves a creator |
| `OrgMembers.UpdateRoleKeepsMembers` | plugins/organization.go:2292-2314 | a role change leaves a creator, also when one creator demotes another |
| `OrgMembers.LeaveHandlerKeepsMembers` | plugins/organization.go:2452-2463 | leaving leaves a creator |
| `OrgMembers.CreateKeepsMembers` | plugins/organization.go:422-443 | a new organization has a creator |
| `OrgMembers.AcceptKeepsMembers` | plugins/organization.go:1590-1604 | accepting keeps one row per user and the membership limit |
| `OrgMembers.AddMemberKeepsMembers` | plugins/organization.go:2014-2034 | so does adding |
| `OrgMembers.FoundedHasCreator` | plugins/organization.go:901-906 | a new organization has a creator iff the configured creator role is trimmed and comma-free |
| `OrgInvitations.TimePasses` | plugins/organization.go:970-973 | the invitation invariants only get easier with time |
| `OrgInvitations.InviteKeepsInvitations` | plugins/organization.go:1364-1407 | inviting, prolonging and re-inviting keep one live invitation per recipient and the limit |
| `OrgInvitations.RefusedInviteMayCancel` | plugins/organization.go:1364-1407 | a refused invitation changes the tables iff it cancelled a live one first, and then by that alone |
| `OrgInvitations.AcceptKeepsInvitations` | plugins/organization.go:1577-1658 | an acceptance needs a live invitation and settles it; a rollback leaves it as it was |
| `OrgInvitations.RejectKeepsInvitations` | plugins/organization.go:1764-1820 | rejecting keeps the invariants and settles |
| `OrgInvitations.CancelKeepsInvitations` | plugins/organization.go:1822-1885 | cancelling, also of a settled invitation, never makes one pending |
| `OrgTeams.CreateTeamKeepsTeams` | plugins/organization.go:3249-3258 | creating keeps the number of teams within bounds |
| `OrgTeams.RemoveTeamKeepsTeams` | plugins/organization.go:3348 | removing keeps at least one team |
| `OrgTeams.CreateKeepsTeams` | plugins/organization.go:1036-1112 | the default team puts a new organization within bounds |
| `OrgTeams.AcceptKeepsSeats` | plugins/organization.go:1605-1621 | users per team stay within the limit even when one acceptance joins several teams or fails midway |
| `OrgTeams.AddMemberKeepsSeats` | plugins/organization.go:2035-2054 | users per team stay within the limit when a member is added to a team |
| `OrgTeams.AddTeamMemberKeepsSeats` | plugins/organization.go:3690-3700 | and when a seat is added |
| `OrgTeams.JoinTeamsSeats` | plugins/organization.go:1695-1712 | joining gives a seat in exactly the listed teams and changes no other |
| `OrgTeams.JoinTeamsStops` | plugins/organization.go:1695-1712 | with a failing write, exactly the missing seats before it are taken; it fails iff there are more missing seats than that |
| `OrgTeams.RefusedAcceptMayLeaveSeats` | plugins/organization.go:1634-1653 | when an acceptance is refused by a failing write, and exactly which seats it then leaves behind |
| `OrgTeams.RowsAreUsers` | plugins/organization.go:1114-1137 | with one row for each user and team, the limit on users is a limit on rows |
| `OrgTeams.AddMemberMayDoubleRows` | plugins/organization.go:2071-2083 | a permitted call takes a team over its limit of rows iff the user has a seat there and the team is full |
| `OrgSlugs.CreateKeepsSlugs` | plugins/organization.go:401-416 | a new organization gets a slug of its own |
| `OrgSlugs.UpdateKeepsSlugs` | store/memory/extstore.go:51-65 | an update never takes the slug of another organization |
| `OrgSlugs.UpdateMayBlankSlug` | store/memory/extstore.go:51-65 | an update blanks the slug iff it names none, the store does not keep the old one, and no other slug is blank; if one is, it is refused |
| `OrgRoles.CreateRoleKeepsLimit` | plugins/organization.go:2867-2883 | creation keeps the number of own roles within the limit |
| `OrgRoles.CreateRoleKeepsRoles` | plugins/organization.go:2862-2866 | own roles stay distinct and disjoint from the static table on creation |
| `OrgRoles.ChangeRoleKeepsRoles` | plugins/organization.go:2937-2943 | and on change |
| `OrgRoles.PermissionsOfLists` | plugins/organization.go:3102-3117 | a longer role list grants exactly what its parts grant |
| `OrgRoles.DeletedRoleWasUnused` | plugins/organization.go:2988-2997 | after a deletion every role a member names still exists |
| `OrgRuns.StepKeepsMembers` | plugins/organization.go:2149-2314 | every request keeps the member invariants |
| `OrgRuns.StepKeepsInvitations` | plugins/organization.go:1308-1885 | every request keeps the invitation invariants, what an invitation offers, and its being settled |
| `OrgRuns.StepKeepsTeams` | plugins/organization.go:3203-3375 | every request keeps the bounds on teams |
| `OrgRuns.StepKeepsSeats` | plugins/organization.go:1114-1147 | every request keeps the users per team within the limit |
| `OrgRuns.StepKeepsRoles` | plugins/organization.go:2838-3007 | every request keeps own roles disjoint and distinct |
| `OrgRuns.StepKeepsRoleLimit` | plugins/organization.go:2867-2883 | every request keeps the number of own roles within the limit |
| `OrgRuns.StepKeepsSlugs` | plugins/organization.go:401-416 | every request keeps slugs distinct, and well formed unless the store blanks them |
| `OrgRuns.StepKeepsIds` | plugins/organization.go:417-421 | drawn ids stay ahead of every table |
| `OrgRuns.StepKeeps` | plugins/organization.go:331-3827 | every request keeps every invariant |
| `OrgRuns.EveryRunIsSafe` | plugins/organization.go:331-3827 | over every run from the start: a creator in every organization, distinct slugs, and all capacities and uniqueness facts at every later time |
| `OrgFacts.AcceptedAtMostOnce` | plugins/organization.go:1577-1658 | over every run each invitation is accepted at most once |
| `OrgFacts.AcceptanceAddsOneMember` | plugins/organization.go:1628-1645 | an acceptance adds exactly one member, with the offered role |
| `OrgFacts.OfferStands` | plugins/organization.go:1434-1439 | over every run an invitation keeps organization, e-mail, role and teams, does not come back, and moves on in status only: from pending to any, from accepted to cancelled at most |
| `OrgFacts.InvitationRequestKeepsAccepted` | plugins/organization.go:1822-1885 | a request changes the status of an accepted invitation iff it is a permitted cancellation of it |
| `OrgFacts.AcceptedUnlessCancelled` | plugins/organization.go:1822-1885 | over every run, an accepted invitation that is still there is still accepted iff no permitted cancellation of it occurred |
| `OrgFacts.AcceptJoinsInvitedTeams` | plugins/organization.go:1437 | from any invitation issued by the handler, also in place of a cancelled one, through any run to its acceptance: the user joins exactly the teams asked for |
| `OrgFacts.StepKeepsSingleSeats` | plugins/organization.go:2071-2083 | a request gives a user a second row in a team iff it is an add-member call for a team where the user has a seat |
| `OrgFacts.RowsStayWithinLimit` | plugins/organization.go:1114-1137 | over every run without such a call, the rows of a team stay within the limit |
| `OrgFacts.StaticRolesKeepTheirMeaning` | plugins/organization.go:3102-3126 | over every run a role value of static roles permits the same before and after |
| `OrgCreators.CreatorInvitationsAreIssuedByCreators` | plugins/organization.go:1345-1349 | over every run, an invitation carrying the creator role was issued by a request of the run whose caller held the role at that moment |
| `OrgCreators.CreatorsComeFromCreators` | plugins/organization.go:2292-2301 | a new creator row is the founder's, an accepted invitation's with its role, one added by the server, or one recast by a holder |
| `OrgCreators.HandedOverHolds` | plugins/organization.go:422-443 | each request that hands the role over does make its user a holder |
| `OrgCreators.CreatorRoleIsHandedDown` | plugins/organization.go:2292-2301 | over every run, whoever holds the creator role got it down a chain of users who held it when they gave it or issued the invitation, from the founder or a user added by the server |
| `OrgScenarios.RowsCanExceedTheLimit` | plugins/organization.go:2071-2083 | a run from the empty tables to two rows in a team for one user |
| `OrgScenarios.RefusedInviteCanCancel` | plugins/organization.go:1384-1407 | a run in which a refused re-invitation cancels the earlier invitation |
| `OrgScenarios.RefusedAcceptCanLeaveSeats` | plugins/organization.go:1648-1653 | a run in which a refused acceptance leaves a seat to a user who is not a member |
| `OrgScenarios.AcceptedInvitationCanBeCancelled` | plugins/organization.go:1822-1885 | a run in which an accepted invitation is cancelled and the member stays |
| `OrgScenarios.OnlyTheOwnerDeletes` | plugins/organization.go:601-659 | a run after which a plain member is forbidden to delete the organization and the owner deletes it with all its rows but her seat |

## Left out

- HTTP, JSON and form parsing, redirects, cookie attributes and response bodies: handlers take parsed arguments and return a reply.
- Cryptography: HMAC is opaque, the answer of the TOTP comparison is an input, password checks and random generation are inputs.
- OAuth, SAML, WebAuthn, SCIM, payment and e-mail providers, and the SQL and memory stores beyond the lookups shown: plumbing.
- Interleaving inside a handler: the code takes no lock there, so two overlapping requests can break what one at a time keeps.
- Organization hooks, custom default teams and function-valued limits: arbitrary user code.
- `update-team`, listing, filtering and active-organization handlers: they touch names or read only. Of `update`, only the slug is modelled.
- The organization and team selected in a session: an input of `remove-team`, otherwise not modelled.
- Renaming an own role does not update members that hold it; no claim is made that it should.
- `OrgPlugin.Plugin.HandleRemoveTeamMember`: deletes all rows of a user in a team, as the SQL store does; the memory store deletes one of several.
- `OrgPlugin.Plugin.Route`: takes team and role requests also when those features are off, which the route table does not; the theorems cover the larger set of runs.
- `OrgTables.RoleTable`: later modules take any static role table, not just one built this way.
- `HookedStore.LoopEffect`: the hooks may depend on everything they have seen but do not write the store themselves. The create and update wrappers are not modelled.
- `Sessions.Auth.ResolveSession`: leaves out sessions injected by the API-key plugin, failures of the refresh write, and a change of the cache version. Handlers that only call `GetSession`, which does not check expiry, are not covered by the session theorems.
- `TwoFactorSafety.LockoutBound`: counts comparisons on pending challenges only, as the code does; a caller with a session is not limited. The `twoFactorEnabled` flag and trusted devices, which decide whether a challenge is made at all, are left out.
- `OneTimeCode.IssuedCodeSafety`: is about an identifier; that the `change-email` identifier joins two addresses ambiguously (plugins/emailotp.go:310) is not modelled.
- Which bytes a path or a header can carry in HTTP: the limiter is given any path text and any header value.
- `RateLimit.Limiter.Allow`: leaves out the switch that turns limiting off and the fail-open answer to an error of a custom counter store.
- Spaces beyond ASCII, which take several bytes and which `strings.TrimSpace` removes too.
- Letter case folding beyond ASCII in `Strings.ToLower`, and the difference between folding and lower-casing.
- Millisecond truncation of times by the SQL store and the cache cookie.
