# A model of the Komodo auth API's token protocols

The auth API issues JWTs to clients and users and keeps all of its shared state in a key-value store with
expiry: one-time passwords and their counters, passkey ceremonies, authorization codes, claim markers and the
denylist of revoked tokens. Nearly every guarantee it gives rests on set-if-absent, on arithmetic with times to
live, and on the order of steps that are not atomic together. This project models those protocols in Dafny and
proves what they guarantee over every run, how far a guarantee reaches, and where it stops.

`dafny verify dfyconfig.toml` checks the whole project.

## How it is built

- `TtlStore.dfy`: the store as a value (`Store`) and as the mutable object the code talks to (`Redis`). A key
  is present until its deadline; time is in nanoseconds, times to live in whole seconds. Each round trip may
  succeed, be refused before it takes effect, or take effect and lose its reply. `KeyNames.dfy` says when the
  strings behind two keys differ.
- `Runs.dfy`: runs of any machine given by its step function.
- `SingleUse.dfy`: the protocol behind OTP verification and the passkey ceremonies (Get, check, SetNX of a
  claim, Delete), with any number of calls in flight and every store operation a step of its own.
- `Otp.dfy`, `OtpIssues.dfy`, `OtpGuesses.dfy`, `OtpGuessRace.dfy`, `Passkeys.dfy`, `PasskeyRace.dfy`, `AuthCode.dfy`:
  one-time passwords, passkey ceremonies and authorization codes. Methods on `Redis` are proved equal to specification
  functions; the properties are proved about those functions and about interleavings of their store operations.
- `Clients.dfy`: scope strings and the client registry. `Denylist.dfy`: revoked tokens and families.
- `AuthServer.dfy`: the token service with one request per step; its state is the store, the registry and every
  token ever signed. `Service.dfy` holds the handlers as imperative code proved against it. `TokenHistory.dfy`
  keeps the invariant on all tokens, `Steps.dfy` says what any one request can do without naming handlers, and
  `Sessions.dfy`, `Provenance.dfy`, `Families.dfy` and `Replay.dfy` prove the properties of whole runs. `Answers.dfy`
  says which request gets which answer, in terms of the registered clients, the claims and the store alone.
- `RefreshRace.dfy`: refreshes, replays, revocations and introspections that overlap, one denylist operation
  per step, and the link to the handler.
- `Keys.dfy`, `KeyRotation.dfy`, `JwksRace.dfy`: the two signing-key slots and the published key set, first one
  call at a time, then with lookups and reloads interleaved, then with requests for the key set and reloads. In the
  interleaved machines every load and store of a slot is a step of its own.
- `ServiceToken.dfy`: the service token cached under a mutex.

The interleaved machines and the one-request-per-step functions are tied together by the `StepsRefine...` lemmas.

Assumptions: UUIDs and authorization codes are fresh; signatures cannot be forged, so a token is presented by its
position in the history; one kid names one key pair; the store and the process share one clock; JSON encoding
is lossless.

## What was found

- An issued OTP can be compared with nine guesses, not five (`README.md:514` of the repository says five), even if
  requests do not overlap and the store works: the attempt counter runs for 300 s from its first increment, not from the
  issue of the code, so two counter windows can meet one code. Nine is exact then, and `OtpGuesses.FiveGuessesIff` says
  for which codes five holds.
- When submissions overlap with an issue there is no bound at all, however quick they are: the gate lets submissions
  through uncounted while no code is pending, and all of them can be compared with the code that is stored next
  (`OtpGuessRace.EarlyCrowdIsUnbounded`). `OtpGuessRace.OverlappingLimitIsExact` gives the exact maximum for each code.
  When the counter cannot be incremented the gate stays open, so a failing store lifts the bound as well.
- A verification whose attempt counter loses its Expire leaves a counter that never runs out: after four more wrong
  guesses every further code is refused, as long as the store works and requests do not overlap
  (`OtpGuesses.LostExpireLocksOut`).
- Issuing a code deletes the redeemed marker, so a call that read the previous code can redeem it a second time.
  `OtpIssues.IssueWindowIsExact`: exactly the 60 s cooldown keeps this from happening, and only if no issue under way
  goes on for longer than that.
- The cap of ten passkeys holds for requests that do not overlap. A begin that listed nine and stores its session after
  a completion has created the tenth leads to an eleventh, although nothing fails and every call is quick. A run of
  calls under 150 s is safe exactly if it creates no tenth passkey while a begin is pending
  (`PasskeyRace.CapHoldsIffTenthAlone`).
- `README.md:517` says that a revoked family stays blocked for the remaining refresh token lifetime. The entry
  lasts as long as the token that was *replayed*, which may be shorter than that of the current member, and a
  later replay of an older member replaces a long entry by a shorter one. `Replay.FamilyRefusedUntilLastCover`
  gives the exact time, `Replay.ReplayKeepsCoverIff` the exact condition, and
  `Replay.OlderReplayReopensFamily` with `Replay.ThreeMembersReachable` a run that shows it.
- A denylist entry lives for whole seconds, so in the fraction of a second that was cut off a revoked or rotated
  token is let through again: `Denylist.DeniedUntil`, `Families.RotatedAgainIff`. A token revoked with less than a
  second to live is never let through.
- A refresh reads the denylist and writes it later, and the exchange of an authorization code deletes it
  without a claim, so overlapping requests can both succeed. Requests that do not overlap cannot, unless the first one's
  denylist write or delete is lost, which is only logged (`internal/api/oauth_token.go:345-347` and `:501-503`), or the
  second refresh comes in the fraction of a second that `Families.RotatedAgainIff` describes. Having read the token's
  entry in time is the exact condition (`RefreshRace.SecondSucceedsIffItHasRead`), and only such an overlap can leave a
  family with two usable members (`RefreshRace.ForkNeedsOverlap`).
- The published key set is listed once for the cache key and once for the body, and each listing loads the two slots
  one after the other. If a kid comes back after it was replaced, a request can be answered with a key that was in no
  slot while it ran; otherwise every answer has only keys that were in their slots then
  (`JwksRace.FreshIffNoKidReturns`). An answer can still join two keys that were never published together, as soon as
  the kid changes twice (`JwksRace.OneMomentIffOneChange`).
- A refreshed access token of a user session that came from an authorization code carries `passkey:verified` and not
  the scope that was authorized (`Sessions.RefreshedUserScopes`), and a client that asked for `offline_access` alone
  gets its `svc:` scope only on refresh (`Sessions.RefreshedClientScopes`).
- A client that is registered for other audiences than the service one gets refresh tokens that no refresh accepts:
  they always name the service audience (`Sessions.OtherAudienceCannotRefresh`).

## Model

The first 155 rows are results; the rows after them, from `TtlStore.Redis.Get` on, tie the code to the
specification functions that the results are about.

| member | source | states |
|---|---|---|
| SingleUse.ClaimsApart | internal/db/otp.go:53-60 | in every interleaving two calls that set the claim marker did so at least the claim TTL apart, whatever fails and however long calls take |
| SingleUse.OneClaimPerLifetime | internal/db/otp.go:38-66 | if the claim lives as long as the payload, one call wins it in the payload's lifetime |
| SingleUse.AtMostOnePerPayload | internal/db/otp.go:38-66 | at most one call succeeds with one payload when each takes less than half the claim TTL, whatever other payloads replace it meanwhile |
| SingleUse.AtMostOne | internal/db/otp.go:38-66 | so at most one call succeeds while no new payload is stored |
| SingleUse.SlowCallsBothSucceed | internal/db/otp.go:38-66 | two calls succeed once a call may take longer than that |
| SingleUse.OneSuccessIffCallsAreShort | internal/db/otp.go:38-66 | half the claim TTL is exactly the limit, over all interleavings |
| Otp.RedeemedAtMostOnce | internal/db/otp.go:38-66 | in every interleaving of calls under 150 s with no issue among them one stored code is redeemed at most once |
| Otp.RedemptionLimitIsExact | internal/db/otp.go:38-66 | 150 s is the exact limit |
| Otp.StepsRefineVerify | internal/db/otp.go:38-66 | Get, SetNX and Delete run without interruption are VerifyOTP |
| Otp.VerifiedIff | internal/api/otp.go:116-208 | exactly which submissions are verified: the pending code, not redeemed yet, with the gate open, nothing failing, and an account, whose user is answered |
| Otp.AnswersExplain | internal/api/otp.go:110-199 | what every answer says about the request and the store, in the order of the checks |
| OtpIssues.StepsRefineIssue | internal/db/otp.go:11-36 | SetNX, Delete and Set run without interruption are GenerateAndStoreOTP |
| OtpIssues.RefusedIssuesKeepSingleUse | internal/db/otp.go:16-24 | issues that the cooldown refuses leave single use intact, in every interleaving, and so do earlier issues still under way if none goes on for longer than the cooldown |
| OtpIssues.PassedIssueReopensCode | internal/db/otp.go:16-33 | whenever one call has redeemed a code and another has read it, an issue that passes the cooldown lets the other one redeem it too |
| OtpIssues.IssueBetweenCallsBreaksSingleUse | internal/db/otp.go:16-33 | the run in which an issue 60 s after the first makes two calls redeem the first code |
| OtpIssues.OvertakenIssueBreaksSingleUse | internal/db/otp.go:16-33 | the run in which an earlier issue that goes on for longer drops the marker of the next code, and two calls redeem that |
| OtpIssues.IssueWindowIsExact | internal/db/otp.go:16-66 | one code is redeemed at most once in every interleaving, also with earlier issues still under way, if and only if new issues are attempted only before the end of the cooldown and no issue goes on for longer than the cooldown lasts |
| OtpGuesses.GuessLimitIsExact | internal/api/otp.go:116-143 | with one request per step and a store that works, exactly how many codes can be compared with the OTP issued now: what the running counter has left, and five more unless that counter outlasts the code |
| OtpGuesses.FiveGuessesIff | internal/db/otp.go:88-112 | with one request per step the documented five hold for a code if and only if, when it is requested, no counter is running, or it is used up, or it lasts as long as the code will |
| OtpGuesses.AtMostNineGuesses | internal/api/otp.go:116-143 | over every run with one request per step and a store that works at most nine codes are compared with one issued OTP, five if no counter ran when it was issued |
| OtpGuesses.NineGuessesHappen | internal/db/otp.go:88-112 | a run in which nine are compared |
| OtpGuesses.AttemptKeepsGuesses | internal/db/otp.go:88-112 | counting an attempt makes room in the bound for the comparison that may follow |
| OtpGuesses.LockedOutIff | internal/api/otp.go:116-143 | with one request per step, no code submitted in any continuation in which the store works is ever compared, exactly if the counter is used up and has no deadline |
| OtpGuesses.LostExpireLocksOut | internal/db/otp.go:101-111 | one lost Expire and four more wrong guesses lead there |
| OtpGuessRace.OverlappingLimitIsExact | internal/api/otp.go:116-187 | with every store operation of submissions and issues a step of its own, exactly how many codes can be compared with the OTP stored now: those of the submissions inside the gate already, what the running counter has left, five more unless that counter outlasts the code, and five for every submission that has still to clear it |
| OtpGuessRace.NineBesidesThoseInside | internal/api/otp.go:116-187 | in every interleaving at most nine, besides those inside the gate and five for each clearing under way when the code was stored |
| OtpGuessRace.EarlyCrowdIsUnbounded | internal/db/otp.go:93-99 | for every n a run in which no time passes and n codes are compared with one OTP |
| OtpGuessRace.StepsRefineSubmission | internal/api/otp.go:116-187 | the steps of a submission run without interruption are the handler, and count one comparison exactly when it compares |
| OtpGuessRace.StepsRefineIssue | internal/db/otp.go:11-36 | the steps of an issue run without interruption are GenerateAndStoreOTP |
| Passkeys.AtMostTenPasskeys | internal/api/passkeys_register.go:83-211 | with one request per step nobody ever holds more than ten: a session still live at ten is covered by a marker that outlives it |
| Passkeys.PasskeysAreEarned | internal/api/passkeys_register.go:145-211 | over every run a user's passkeys are those earned by a response that passed the check, for a live and unclaimed session, less those lost |
| Passkeys.CountAfterStep | internal/api/passkeys_register.go:145-211 | exactly which steps create a passkey, and that they create one |
| Passkeys.FailedCompletions | internal/api/passkeys_register.go:145-211 | what a completion leaves behind that fails the check, cannot be persisted or loses the reply |
| Passkeys.RegisterAnswersExplain | internal/api/passkeys_register.go:145-211 | what every answer says about the request, in the order of the checks |
| Passkeys.BeginStoresIff | internal/api/passkeys_register.go:65-125 | exactly when a registration session is stored |
| Passkeys.RegistersAtMostOnce | internal/api/passkeys_register.go:145-211 | in every interleaving one session registers at most one passkey, if deletes reach the store and each completion takes under 150 s, also when the user begins again meanwhile |
| Passkeys.RegistrationLimitIsExact | internal/api/passkeys_register.go:145-211 | 150 s is the exact limit |
| Passkeys.FailedDeleteRegistersTwice | internal/api/passkeys_register.go:145-211 | overlapping completions register two from one session if the delete fails |
| Passkeys.StepsRefineRegistration | internal/api/passkeys_register.go:145-211 | the store steps of a completion run without interruption are the handler |
| PasskeyRace.OverlappingBeginExceedsTheCap | internal/api/passkeys_register.go:76-211 | a run from nine passkeys to eleven in which nothing fails and every call is quick: a begin lists nine and stores its session after the tenth was created |
| PasskeyRace.CapHoldsIffTenthAlone | internal/api/passkeys_register.go:76-211 | for every interleaved run in which completions take under 150 s and nothing fails: the cap of ten holds from each of its moments on, in every continuation that creates no tenth passkey while a begin is pending, if and only if the run itself creates none so |
| PasskeyRace.CapHoldsWhileTenthAlone | internal/api/passkeys_register.go:76-211 | so the cap holds over every such run without that creation |
| PasskeyRace.EleventhFollows | internal/api/passkeys_register.go:76-211 | wherever the tenth is created while a begin is pending, an eleventh can follow |
| PasskeyRace.StepsRefineCeremony | internal/api/passkeys_register.go:76-211 | the steps of a begin and of a completion run without interruption are the handlers |
| Passkeys.LoginIssuedAtMostOnce | internal/api/passkeys_auth.go:203-345 | in every interleaving at most one completion of a challenge passes, if deletes reach the store and each takes under 150 s |
| Passkeys.LoginLimitIsExact | internal/api/passkeys_auth.go:203-345 | 150 s is the exact limit |
| Passkeys.NoLoginWithinClaim | internal/api/passkeys_auth.go:251-320 | once a completion has set the marker, and whatever stops it then, no other one passes within 300 s |
| Passkeys.SecondLoginOnlyAfterExpiry | internal/db/webauthn.go:74-118 | even when deletes fail a second completion claims only after the session's lifetime |
| Passkeys.FailedDeleteAllowsSecondLogin | internal/api/passkeys_auth.go:308-310 | without the delete a second login does get through |
| Passkeys.StepsRefineLogin | internal/api/passkeys_auth.go:203-310 | the steps of a completion run without interruption are the handler |
| Passkeys.LoginIff | internal/api/passkeys_auth.go:203-320 | exactly which completions log in and as whom, and what one leaves behind that is invalid, not persisted or banned |
| Passkeys.LoginAnswersExplain | internal/api/passkeys_auth.go:203-320 | what every refusal says about the request, in the order of the checks |
| Scopes.FieldsOfJoin | internal/api/oauth_token.go:128-141 | splitting a joined list of words gives the list back |
| Scopes.WithoutOfflineConcat | internal/api/oauth_token.go:133-138 | filtering distributes over concatenation, so order is kept |
| Scopes.PlanChecksWhatItSigns | internal/api/oauth_token.go:122-166 | for every scope string the fields signed are exactly the fields of the string that was checked |
| Scopes.PlanOfOfflineAlone | internal/api/oauth_token.go:131-166 | offline_access alone plans a refresh token and no scope |
| Scopes.TrimSpaceSplits | internal/api/otp.go:103-105 | trimming a code takes the white space at both ends and nothing else |
| Denylist.CoverEnd | internal/db/tokens.go:19-23 | an entry lapses in the token's last second, or one second after the write if less was left |
| Denylist.DeniedUntil | internal/db/tokens.go:11-38 | a revoked token is let through exactly in the fraction of a second that the TTL cut off |
| AuthCode.TokensMatchTheGrant | internal/api/oauth_token.go:472-503 | in every interleaving the entry behind an exchange about to sign is that of the authorize request on record for its code, for the same client, registered redirect URI and matching verifier |
| AuthCode.LiveEntryNeverOverwritten | internal/db/authcode.go:35-39 | no step replaces a live code entry |
| AuthCode.SuccessfulExchangesOverlap | internal/api/oauth_token.go:472-503 | if deletes reach the store, two successful exchanges of one code each read it before the other deletes it |
| AuthCode.OverlappingExchangesBothSucceed | internal/api/oauth_token.go:472-503 | from the start, a granted code that two exchanges read before either deletes it is exchanged twice |
| AuthCode.LostDeleteLeavesCode | internal/api/oauth_token.go:501-503 | after an exchange whose delete was lost another one succeeds without overlap, exactly while the entry is live |
| AuthCode.StepsRefineExchange | internal/api/oauth_token.go:472-503 | read and delete run without interruption are the exchange |
| AuthCode.AuthorizedIff | internal/api/oauth_authorize.go:47-164 | exactly which authorize requests get a code, and the entry stored under it |
| AuthCode.AuthorizeAnswersExplain | internal/api/oauth_authorize.go:47-164 | what every answer says about the request, in the order of the checks |
| AuthCode.ExchangedIff | internal/api/oauth_token.go:439-503 | exactly which exchanges succeed, with the live entry of that code, client, redirect URI and verifier, and that the code is then gone |
| AuthCode.ExchangeAnswersExplain | internal/api/oauth_token.go:439-499 | what every refusal says about the request, in the order of the checks |
| TokenHistory.InvStep | internal/api/oauth_token.go:106-349 | every request keeps the invariant on all tokens: ids fresh and distinct, subject, scopes, audience, azp and family as the origin demands, valid from the moment of signing |
| TokenHistory.InvRun | internal/api/oauth_token.go:106-575 | the invariant holds over every run |
| TokenHistory.SignGrantedKeepsInv | internal/api/oauth_token.go:163-201 | what a client gets was allowed to it at that moment |
| TokenHistory.RotatedTokensKeepInv | internal/api/oauth_token.go:280-341 | what a rotation passes on and what it renews |
| TokenHistory.SignLoginKeepsInv | internal/api/passkeys_auth.go:322-345 | the tokens of a login carry the user and name the client of its session |
| TokenHistory.SignExchangedKeepsInv | internal/api/oauth_token.go:525-551 | the tokens of an exchange carry the user, scope and client of the code's entry |
| Provenance.CodeTokensMatchTheRequest | internal/api/oauth_token.go:472-556 | over every run a token signed for a code carries user and scope of an authorize request of that run and was signed by an exchange with its client, redirect URI and challenge; the refresh token names that client |
| Provenance.LoginTokensMatchTheSession | internal/api/passkeys_auth.go:99-345 | over every run a token signed for a login carries the user of a login begun in that run for a registered client and completed validly; the refresh token names that client |
| Provenance.OtpTokensMatchTheCode | internal/api/otp.go:187-226 | over every run a token of an OTP login carries the user that was answered for the address, and was signed when the pending, unredeemed code of that address was submitted |
| Provenance.ClientTokensNeededTheSecret | internal/oauth/clients.go:70-98 | over every run a token of a client_credentials grant or of a refresh was signed for a request with the secret registered for its client at that moment |
| Provenance.SignedByAStep | internal/api/oauth_token.go:106-575 | every token was signed by one step of the run that asked for just that token |
| Provenance.StepEffect | internal/api/oauth_authorize.go:120-149 | any request stores a code entry or login session only as what it asked for, and signs for one only what was stored |
| Provenance.IntrospectedScopes | internal/api/oauth_introspect.go:36-40 | splitting the scope string that introspection reports gives the token's scopes, in order, for a subject without white space |
| Steps.StepSummary | internal/api/oauth_token.go:106-406 | any request only signs fresh tokens, or denies one token, or denies one family, or rotates one token |
| Steps.AcceptedRefreshRotates | internal/api/oauth_token.go:310-349 | an accepted refresh signs exactly one access and one refresh token and denies the presented one |
| Steps.DetectionDeniesFamily | internal/api/oauth_token.go:375-389 | a detected replay writes the family entry and signs nothing |
| Steps.RefusedRefreshChangesNothing | internal/api/oauth_token.go:221-288 | any other refusal changes nothing |
| Steps.FailedSigningDeniesNothing | internal/api/oauth_token.go:310-341 | a refresh whose signatures fail leaves the store alone and signs nothing but at most one access token, which nobody gets |
| Steps.RevokeDenies | internal/api/oauth_revoke.go:83-98 | a revocation writes one token's entry or nothing |
| Steps.NoTokenLivesLonger | internal/api/oauth_token.go:22-25 | over every run no token has more to live than its kind allows |
| Sessions.RefreshTokensKeepTheirSession | internal/api/oauth_token.go:323-341 | over any number of rotations subject, azp, audience, family and scopes stay those of the first refresh token, under a new jti |
| Sessions.RefreshedClientScopes | internal/api/oauth_token.go:290-308 | a client's refreshed access token carries the granted scopes and svc:client; equal to the first one's exactly if some other scope was granted |
| Sessions.RefreshedUserScopes | internal/api/oauth_token.go:297-305 | a user session's refreshed access token carries exactly passkey:verified |
| Sessions.ClientScopesWereAllowed | internal/api/oauth_token.go:143-166 | every scope of a client's access token, first or refreshed, was allowed when the chain began |
| Sessions.RefreshAcceptsIff | internal/api/oauth_token.go:221-341 | exactly which requests are accepted, in any reachable state: the right secret, an unexpired refresh token of that client, nothing denied, an allowed audience, no banned user |
| Sessions.AudienceDecides | internal/api/oauth_token.go:269-288 | of the refreshes that pass every other check, a client's own get a pair exactly if the token's audience is listed for the client, or is the service audience and none is listed; otherwise nothing is signed; for a user's token the list plays no part |
| Sessions.OtherAudienceCannotRefresh | internal/api/oauth_token.go:187-195 | the refresh token of a client registered for other audiences only is refused in any reachable state |
| Sessions.OnlyRefreshTokensAreRefreshed | internal/api/oauth_token.go:246-258 | in every run only refresh tokens signed for the presenting client are accepted, whatever an access token's scopes say |
| Sessions.UserTokensCarryNoServiceScope | internal/api/oauth_token.go:156-201 | with the code grant off and client and user ids apart, no token for the user audience ever carries a service scope |
| Sessions.ServiceScopeOnUserTokenIff | internal/api/oauth_token.go:156-166 | a client gets such a token exactly if it is registered for the user audience alone and asks for a scope |
| Answers.ClientGrantIff | internal/api/oauth_token.go:106-219 | exactly which clients get tokens for which scope strings, and which get a refresh token |
| Answers.ClientTokens | internal/api/oauth_token.go:156-201 | audience, subject and scopes of the tokens a client gets |
| Answers.ClientAnswersExplain | internal/api/oauth_token.go:106-154 | what every refusal says about the request, in the order of the checks |
| Answers.RefreshAnswersExplain | internal/api/oauth_token.go:221-341 | a refused refresh has passed the checks before, and what every refusal says |
| Answers.OtpLoginIff | internal/api/otp.go:92-226 | exactly which submissions get a token, for which user, and why the others do not |
| Answers.PasskeyLoginIff | internal/api/passkeys_auth.go:177-364 | exactly which completions get a token pair, for the user and client of the live session |
| Answers.PasskeyBeginIff | internal/api/passkeys_auth.go:74-171 | exactly which passkey logins can begin, and what every refusal says |
| Answers.CodeExchangeIff | internal/api/oauth_token.go:439-575 | exactly which exchanges get a token pair, for the user, scope and client of the live entry |
| Answers.RevokedIff | internal/api/oauth_revoke.go:71-98 | who may revoke an unexpired token: a registered client its own and nobody else those, any other token the client it names or any if it names none; everybody else changes nothing |
| Answers.RevokeRefusals | internal/api/oauth_revoke.go:41-69 | without the right secret or an unexpired token nothing is revoked |
| Answers.ClientsRevokeTheirOwn | internal/api/oauth_revoke.go:71-98 | over every run the client that a client_credentials token was issued to can revoke it, and no other one, while it is registered |
| Answers.IntrospectionTells | internal/api/oauth_introspect.go:29-86 | over every run a token is reported exactly until it expires or is known to be revoked, with its subject, audience, the second it was signed in and the one it expires in |
| Answers.AnswersHandOut | internal/api/oauth_token.go:168-356 | an answer names the tokens its request signed, access and refresh token each as what it is, and a refusal none |
| Answers.LoginsHandOut | internal/api/passkeys_auth.go:322-364 | the same for logins |
| Families.FamilyIsAChain | internal/api/oauth_token.go:239-349 | with one request per step, if every denylist write reaches the store and no refresh token is presented in its last second, at any time at most one member of a family with a second or more to live is not denied, the youngest one |
| Families.RotationKeepsChain | internal/api/oauth_token.go:323-349 | why: the rotated token is denied and so was every older member |
| Families.DeniedStaysDenied | internal/db/tokens.go:11-26 | no request takes a token off the denylist before its last second |
| Families.RotatedAgainIff | internal/api/oauth_token.go:343-349 | a rotated token is accepted again exactly in the fraction of a second cut off its TTL |
| Replay.StepAndFamilies | internal/api/oauth_token.go:367-389 | a request writes a family's entry exactly when it detects a replay in it |
| Replay.FamilyRefusedUntilLastCover | internal/api/oauth_token.go:367-405 | over every run a family is refused exactly until the entry of the last detected replay lapses |
| Replay.ReplayedFamilyIsRefused | internal/api/oauth_token.go:367-405 | after a replay every member is refused until one second before the replayed token's expiry, unless an older token is replayed |
| Replay.ReplayKeepsCoverIff | internal/api/oauth_token.go:375-382 | a further replay keeps the family refused as long as before exactly if its own entry does not lapse earlier |
| Replay.OlderReplayReopensFamily | internal/api/oauth_token.go:375-382 | once the replay of an older member has replaced the entry of a younger one, the current member passes again too early |
| Replay.ReplaysDenyTwice | internal/api/oauth_token.go:367-389 | two replay requests, the younger member first, leave exactly these two entries |
| Replay.ThreeMembersReachable | internal/api/oauth_token.go:181-201 | that situation is reached by one grant and two rotations |
| Replay.RevokedStaysInactive | internal/api/oauth_introspect.go:29-72 | after a stored revocation introspection answers active only strictly inside the last second |
| Replay.RevokedLateIsNeverActive | internal/db/tokens.go:19-23 | and never if less than a second was left |
| RefreshRace.SuccessfulRefreshesOverlap | internal/api/oauth_token.go:343-391 | in every interleaving, of two refreshes of one token that succeed and record it each read the denylist before the other wrote |
| RefreshRace.OverlappingRefreshesBothSucceed | internal/api/oauth_token.go:260-349 | from any state, any two refreshes of one unexpired token that have both read its entry before either writes it can both succeed |
| RefreshRace.SecondSucceedsIffItHasRead | internal/api/oauth_token.go:343-391 | in every interleaving, once one refresh has recorded the token another one under way can still succeed if and only if it has read the entry already, reads in the last second and denied families aside |
| RefreshRace.TwoRefreshesHappen | internal/api/oauth_token.go:260-349 | a run from the start in which two refreshes of one token succeed |
| RefreshRace.ForkNeedsOverlap | internal/api/oauth_token.go:323-349 | in every interleaving, if rotations are recorded and no denylist read falls in the last second, two usable members of a family with a second to live go back to two overlapping refreshes of one token |
| RefreshRace.RevokedTokenIsRefused | internal/api/oauth_revoke.go:83-98 | in every interleaving no refresh and no introspection that reads after a revocation's write finds the token usable before its last second |
| RefreshRace.BlamedFamilyIsRefused | internal/api/oauth_token.go:367-405 | in every interleaving no refresh of a family that reads after a replay's family write passes before the replayed token's last second, unless an older member's replay wrote in between |
| RefreshSteps.StepsRefineRefresh | internal/api/oauth_token.go:260-405 | the steps run without interruption are the handler: same outcome, same store, also when a replay is detected |
| Keys.ServedBodyIsFresh | internal/api/jwks.go:62-76 | on every sequential run of reloads and requests the cached body equals a fresh encoding |
| Keys.FreshAfterSameKidIff | internal/api/jwks.go:62-76 | a reload that keeps the kid keeps the cache right exactly if the key is the same |
| Keys.PublishedAreAccepted | internal/jwt/jwt.go:79-147 | the slots never share a kid, and a key is published exactly if tokens naming its kid are verified with it |
| JwksRace.FreshIffNoKidReturns | internal/api/jwks.go:62-76 | with every load and store a step of its own, each answer in every interleaving has only keys that were in their slots at some moment of its request, cached or not, if and only if no reload brings back a kid that was replaced |
| JwksRace.ReturningKidServesOldKey | internal/api/jwks.go:62-76 | for any reloads that bring a kid back, an interleaving in which a request is answered with a key that was in no slot while it ran |
| JwksRace.OneMomentIffOneChange | internal/jwt/jwt.go:79-100 | each answer in every interleaving is the key set of one moment of its request if and only if the kid changes at most once |
| JwksRace.TornListing | internal/jwt/jwt.go:91-100 | with two changes of the kid between the loads of the two slots a request is answered with a pair of keys that were never published together |
| JwksRace.StepsRefineServed | internal/api/jwks.go:62-76 | the steps run without interruption are the reload and the cached body |
| KeyRotation.LiveTokensResolve | internal/jwt/jwt.go:79-147 | in every interleaving of loads and stores an unexpired token resolves to the key that signed it, if kid changes are a token lifetime and signing time apart |
| KeyRotation.LiveTokensResolveIff | internal/jwt/jwt.go:79-147 | that spacing is exact |
| KeyRotation.ActiveFirstLosesTheKey | internal/jwt/jwt.go:84-87 | storing the active slot first loses a live token's key, whatever the spacing |
| KeyRotation.StepsRefineKeyStore | internal/jwt/jwt.go:79-147 | the steps run without interruption are Reload and keyForToken |
| KeyLifetime.ThirtyDaysBetweenChanges | internal/api/oauth_token.go:22-25 | thirty days between kid changes are enough |
| ServiceToken.ReturnedTokenHasFourSeconds | internal/api/otp.go:228-250 | whatever the callers do, a returned token has more than four seconds left, less its signing time |
| ServiceToken.FourSecondsIsTight | internal/api/otp.go:228-250 | two nanoseconds more cannot be promised |
| ServiceToken.OneTokenForTwentyFiveSeconds | internal/api/otp.go:228-250 | a signed token is returned to every call of the next twenty-five seconds, and nothing is signed meanwhile |
| ServiceToken.StaleTokenIsReplaced | internal/api/otp.go:228-250 | after that a new one is signed for thirty seconds, or the call fails and changes nothing |
| KeyNames.NamesAreDistinct | internal/db/cache.go:27-42 | two different keys never share a name, as long as no address begins with the tail of another OTP prefix |
| KeyNames.PlainIffNoClash | internal/db/cache.go:27-33 | exactly those addresses have a code key that is no other address's attempts, cooldown or redeemed key |
| TtlStore.KeyLaws | internal/db/cache.go:69-77 | what each operation does to a key that is present and to one that has lapsed |
| TtlStore.LivesForItsTtl | internal/db/cache.go:69-77 | a value with a time to live is there until then and no longer |
| TtlStore.Redis.Get | internal/db/cache.go:69-77 | the value exactly while the deadline has not been reached, or an error when the round trip fails |
| TtlStore.Redis.Exists | internal/db/cache.go:69-77 | agrees with what Get would find |
| TtlStore.Redis.Set | internal/db/cache.go:69-77 | replaces value and deadline unless the write is refused; a lost reply still wrote |
| TtlStore.Redis.SetNX | internal/db/cache.go:69-77 | reports true and writes exactly when the key was absent or expired |
| TtlStore.Redis.Delete | internal/db/cache.go:69-77 | removes the key and nothing else |
| TtlStore.Redis.Incr | internal/db/cache.go:69-77 | counts up and keeps a running deadline, starts at one without a deadline, and refuses what is no number |
| TtlStore.Redis.Expire | internal/db/cache.go:69-77 | replaces the deadline of a live key only |
| Otp.GenerateAndStoreOTP | internal/db/otp.go:11-36 | claims the cooldown first, then drops the redeemed marker, then stores the code; the errors of each step and what they leave behind |
| Otp.VerifyOTP | internal/db/otp.go:38-66 | success only for the stored code with the claim won and the code deleted; each failure with the state it leaves |
| Otp.IncrOTPAttempts | internal/db/otp.go:88-112 | counts only while a code is pending and starts the 300 s window at the first attempt |
| Otp.DeleteOTPAttempts | internal/db/otp.go:114-119 | removes the counter and reports nothing |
| Otp.OTPVerifyHandler | internal/api/otp.go:92-208 | attempt gate before the comparison, open when counting fails; the counter is cleared on a verified code before the account lookup decides |
| Otp.VerifyRequestIsLocal | internal/api/otp.go:92-208 | a verification touches only the keys of its own address |
| Passkeys.ClaimSession | internal/db/cache.go:111-120 | true exactly when no claim marker was live; the marker then lives 300 s |
| Passkeys.StoreSession | internal/db/webauthn.go:28-42 | keeps the session for 300 s, restarting a running one |
| Passkeys.GetSession | internal/db/webauthn.go:90-108 | tells a missing session from a failing store |
| Passkeys.DeleteSession | internal/db/webauthn.go:110-118 | removes the session; the caller learns when it could not |
| Passkeys.PasskeyRegisterBeginHandler | internal/api/passkeys_register.go:65-125 | stores a session only for a user with fewer than ten passkeys |
| Passkeys.PasskeyRegisterCompleteHandler | internal/api/passkeys_register.go:145-211 | creates one credential only after the claim, without counting; the session survives a failed delete |
| Passkeys.CredentialTable.Create | internal/api/passkeys_register.go:145-211 | the customer service adds one credential, also when its reply is lost |
| Passkeys.PasskeyLoginCompleteHandler | internal/api/passkeys_auth.go:203-320 | Get, ceremony, claim, update, delete, gate in this order, with the kind of each failure and what it leaves behind |
| Scopes.FilterOffline | internal/api/oauth_token.go:131-141 | the loop keeps exactly the other scopes, in order |
| Scopes.PlanScopes | internal/api/oauth_token.go:122-154 | which scope string is checked and which fields are signed |
| Clients.HasScope | internal/oauth/clients.go:22-36 | true exactly if "*" is allowed or the list is not empty and holds every field |
| Clients.Registry.Reload | internal/oauth/clients.go:56-68 | a malformed configuration leaves the registry as it was |
| Clients.Registry.Get | internal/oauth/clients.go:100-121 | the record without its secret hash |
| Clients.Registry.ValidateAndGet | internal/oauth/clients.go:70-98 | the record exactly when the client is known and the secret hashes to its entry |
| Denylist.StoreRevokedEntry | internal/db/tokens.go:11-26 | TTL is the remaining lifetime in whole seconds, at least one; nothing is written for an expired token or an empty id |
| Denylist.StoreRevokedFamilyEntry | internal/db/tokens.go:40-55 | the same for a family |
| Denylist.CheckRevoked | internal/db/tokens.go:28-38 | denied exactly while the entry is live; an error when the store fails |
| Denylist.CheckFamilyRevoked | internal/db/tokens.go:57-67 | the same for a family |
| AuthCode.StoreAuthCode | internal/db/authcode.go:25-40 | stores for 600 s and only where no live entry is |
| AuthCode.GetAuthCode | internal/db/authcode.go:42-60 | the live entry, or which error |
| AuthCode.DeleteAuthCode | internal/db/authcode.go:62-70 | removes the entry |
| AuthCode.OAuthAuthorizeHandler | internal/api/oauth_authorize.go:47-164 | the checks in order and, when all pass, an entry with client, redirect URI, scope, user and challenge |
| AuthCode.ExchangeRefusal | internal/api/oauth_token.go:439-499 | nothing is refused exactly when the request is well-formed and the live entry fits it |
| AuthCode.ExchangeCode | internal/api/oauth_token.go:439-503 | each refusal in order; the entry is returned only to the client, redirect URI and verifier it was stored for, and is then deleted |
| Service.TokenService.SignRefreshToken | internal/jwt/jwt.go:110-131 | appends one token with every claim, a fresh jti and times cut to the second, or draws a jti in vain when the signature fails |
| Service.TokenService.SignToken | internal/jwt/jwt.go:102-108 | the same without azp and family |
| Service.TokenService.SignNewFamily | internal/api/oauth_token.go:187-195 | the same with a family of its own |
| Service.TokenService.ParseClaims | internal/jwt/jwt.go:160-171 | the claims of a signed token that is valid already and has not expired |
| Service.TokenService.SignGrantedTokens | internal/api/oauth_token.go:156-201 | audience, scopes and lifetimes of the tokens a client gets, and what a failed signature leaves |
| Service.TokenService.HandleClientCredentials | internal/api/oauth_token.go:106-219 | every refusal and every token of the client_credentials grant |
| Service.TokenService.PresentRefreshToken | internal/api/oauth_token.go:222-258 | the checks on request, client and token before the denylist is read |
| Service.TokenService.RefreshRevocationDenied | internal/api/oauth_token.go:367-406 | fails closed, and a replay leaves a family entry for the replayed token's remaining life |
| Service.TokenService.IsRefreshTokenUserBanned | internal/api/oauth_token.go:408-437 | tokens with a service scope skip the gate; otherwise its answer decides |
| Service.TokenService.RefreshedClaims | internal/api/oauth_token.go:269-308 | audience and scopes of the new access token, or that the client may not have it |
| Service.TokenService.SignSuccessors | internal/api/oauth_token.go:310-341 | both successor tokens, or what a failed signature leaves |
| Service.TokenService.DenyRotated | internal/api/oauth_token.go:343-349 | the denylist entry of the rotated token |
| Service.TokenService.HandleRefreshToken | internal/api/oauth_token.go:221-365 | the refresh grant as a whole |
| Service.TokenService.HandleAuthorizationCode | internal/api/oauth_token.go:439-575 | the tokens of the code grant |
| Service.TokenService.HandleOtpLogin | internal/api/otp.go:92-226 | one user token for half an hour with otp:verified, only after a verified code of a known account |
| Service.TokenService.PasskeyLoginBeginHandler | internal/api/passkeys_auth.go:74-171 | each refusal in order; otherwise the session of the known user and client is stored, and success is reported exactly when the reply came back |
| Service.TokenService.HandlePasskeyLogin | internal/api/passkeys_auth.go:177-364 | the token pair of a passkey login |
| Service.TokenService.OAuthRevokeHandler | internal/api/oauth_revoke.go:41-106 | who may revoke which token, and the entry written |
| Service.TokenService.OAuthIntrospectHandler | internal/api/oauth_introspect.go:29-86 | the details of an unexpired token that is not known to be revoked, also when the check fails, and otherwise only that it is inactive |
| Keys.KeyStore.Reload | internal/jwt/jwt.go:79-89 | a new kid moves the active key to the previous slot; the same kid keeps the previous slot; a bad configuration changes nothing |
| Keys.KeyStore.VerificationKeys | internal/jwt/jwt.go:91-100 | the keys in both slots, active first |
| Keys.KeyStore.KeyForToken | internal/jwt/jwt.go:133-147 | the key a kid is verified with; an empty kid means the active key |
| Keys.BuildJWKS | internal/api/jwks.go:18-33 | one entry for each key, in order |
| Keys.ListKids | internal/api/jwks.go:42-48 | the kids, in order |
| Keys.KidsEqual | internal/api/jwks.go:50-60 | equality of the lists |
| Keys.JwksCache.Body | internal/api/jwks.go:62-76 | reuses the cached body exactly when the kids are the same; a failed encoding leaves the cache alone |
| ServiceToken.Holder.GetOrRefreshSvcJWT | internal/api/otp.go:228-250 | the cached token until five seconds before its recorded expiry, then a new one |

## Left out

- HTTP decoding, middleware, status codes, logging, health probes and token response bodies: no state to prove things about.
- RSA, PEM, SHA-256 and base64: signatures are ideal, S256 and the secret hash are functions.
- WebAuthn checks, sign counts, descriptor decoding and the loops over descriptors and transports: one valid-or-not answer.
- customer-api and communications-api: oracles that may fail.
- The banned-customer gate: an arbitrary answer, since it fails open.
- The scope validator of the SDK: an arbitrary answer.
- GetOTPAttempts and Registry.List: read-only and not used by any property.
- Lower-casing and parsing of e-mail addresses: an address is any string, and KeyNames says when the OTP keys of two addresses clash.
- Claims without expiry or jti in presented tokens: every token this service signs has both, and no other is accepted.
- ValidateToken and its issuer and audience checks: the grants use ParseClaims.
- Two processes reloading keys or clients at different times: there is one process with one reload writer.
- Floating point in Duration.Seconds(): integer division, which agrees for these lifetimes.
- The order of the OTP handler's two goroutines: the lookup touches no modelled state, so its answer is a parameter.
- Loss of the whole store or of its entries before their deadline: entries live until they expire or are deleted.
- Passkeys.AtMostTenPasskeys: stated with one request per step, which the cap needs; PasskeyRace interleaves the steps.
- Passkeys.CredentialTable.Create: the customer service is the number of passkeys of each user.
- Passkeys.StoreSession: one method for both ceremonies, which differ only in key and payload.
- Otp.IncrOTPAttempts: its contract is for a call without interruption; OtpGuessRace separates its store operations.
