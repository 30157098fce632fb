# Agency referral tracking — a Dafny model

This project models the decision logic of an agency referral-tracking service.
The service is a set of serverless HTTP functions. Agencies hand out tracking
links. A visitor who follows one is redirected to a LINE official account, and
the visit is recorded. When that visitor later adds the account as a friend,
the LINE webhook tries to work out which visit the new friend came from, and
credits the agency with a conversion. Around this sit the billing side
(commissions and monthly invoices) and the shared utilities (CORS, error
responses, rate limiting and bot detection).

Each module models one source file, or a helper shared by several:

- `Attribution` and `Conversions`: how a new friend is matched to a visit.
  - The session tier picks the newest unmatched session of the last two hours.
  - The visit tier scores each unmatched visit of the last ten minutes on
    address, User-Agent, age, session, tracking link and browser.
    Official-site referrers are penalised.
    The first best-scoring visit wins, but only when its score is above zero.
  - There are three variants of the score. One function with a configuration
    record covers all of them.
  - Conversions are check-then-insert ledgers of keys.
- `LineWebhooks`: the three webhook handlers.
  - Signature gate, event dispatch and request forwarding.
  - The follow handlers, including the agency-account branch of the main webhook.
- `LineCommon`: the helpers the webhooks share.
  - Signature check, browser family, client address behind proxies, and the
    get-or-create of a LINE user.
- `BotDetector`: the additive bot-confidence score and its list aggregates.
- `TrackRedirect`: the redirect endpoint.
  - Tracking-code extraction and link lookup.
  - The User-Agent classifiers and the session id.
  - The attribution parameters appended to the destination URL.
- `RateLimiter`: the fixed-window in-memory rate limiter.
- `Cors`: the origin allow-list and the headers built from it.
- `ErrorHandler`: error responses and message sanitisation.
- `Invoice`: invoice issuing and e-mail resending.
  - Tax and withholding arithmetic in integer yen.
  - The year-month key, the invoice lines, and the draft → issued → sent status flow.
- `AdminCommissions`: the admin commission endpoint.
  - Basic-auth gate and routing.
  - Creation defaults, update patches and list statistics.
- `AgencyAuth`, `LinkVisits` and `AgencyServices`: the agency-facing endpoints.
  - The bearer-token gate.
  - The visit list, including the LINE user inferred from address and User-Agent.
  - The merge of per-agency service settings over the service defaults.
- `TrackingLinks`: the two link-creation endpoints.
  - Validation order, code generation, and the bounded uniqueness retry.
- `RuntimeEnv`, `JsText` and `Wrappers`: shared helpers.
  - `RuntimeEnv` holds the environment and development flag.
  - `JsText` models JavaScript string behaviour: ASCII case folding, trimming,
    splitting, search and decimal rendering.
  - `Wrappers` holds `Option`.

Every side effect is lifted out.

- **Database reads** become inputs: sequences of rows, or a query result that
  can be an error.
- **Database writes** become returned values.
- **Outcomes the program cannot decide itself** become parameters: whether an
  insert or update succeeded, whether an e-mail was delivered, what the LINE
  profile API answered.
- **The clock, random numbers, HMAC digests and token verification** are
  parameters as well.

Everything is modelled sequentially.

The model follows the code where it differs from what the code's comments and
documentation promise. Among these differences:

- **Tracking-link creation.** A retried tracking code is not checked again
  before it is inserted. A name of blanks is stored empty.
  `agency-create-link` verifies a header without the `Bearer ` prefix as a
  token. A missing `LINE_OFFICIAL_URL` is reported (500) before a missing
  name (400).
- **Invoices.** An invoice is answered as issued even when its final update
  failed.
- **Client addresses.** An "unknown" client address does not prove that the
  proxy headers were missing.
- **Bot detection.** The bot confidence can be negative.
- **User-Agent classifiers.** The redirect's classifiers call a Chromium Edge
  browser Chrome, an Android phone Linux and an iPhone naming "Mac OS X" macOS.
- **Admin password.** An admin password containing ':' can never be entered.
- **Lookups.** A lookup that expects exactly one row finds nothing when there
  are duplicates.

All files are verified together, with Dafny 4.11:

    dafny verify --resource-limit 2000000 --verification-time-limit 0 *.dfy

## Model

| member | source | states |
|---|---|---|
| Cors.AllowedOrigins | netlify/functions/utils/cors-headers.js:10-24 | a set, non-empty ALLOWED_ORIGINS gives its comma-separated entries, each trimmed, position by position; otherwise the four built-in origins |
| Cors.ConfiguredOriginsRoundTrip | netlify/functions/utils/cors-headers.js:13-15 | configuring any non-empty list of comma-free, already-trimmed origins joined by commas allows exactly that list, in order |
| Cors.IsOriginAllowed | netlify/functions/utils/cors-headers.js:39-56 | a falsy origin is never allowed; otherwise allowed if and only if it has a local prefix in development or is a member of the allowed list |
| Cors.ProductionIgnoresDevPrefixes | netlify/functions/utils/cors-headers.js:46-55 | outside development the local prefixes give nothing: allowed exactly when listed |
| Cors.TrailingSlashRefused | netlify/functions/utils/cors-headers.js:18-55 | matching is exact: a built-in origin with a trailing slash is refused in production |
| Cors.RequestOrigin | netlify/functions/utils/cors-headers.js:65 | the lower-case `origin` header wins, then `Origin`, then the empty string |
| Cors.GetCorsHeaders | netlify/functions/utils/cors-headers.js:64-96 | a refused origin gets exactly the security headers overlaid by the caller's; an allowed one additionally gets the six CORS headers with the origin echoed, and no other key; caller headers override the defaults |
| Cors.RefusedOriginGetsNoCorsHeaders | netlify/functions/utils/cors-headers.js:77-93 | for a refused origin none of the six CORS headers is present |
| Cors.HandleCorsPreflight | netlify/functions/utils/cors-headers.js:103-109 | status 200 with an empty body, and an Allow-Origin header exactly when the origin is allowed |
| Cors.RefusedOriginPreflight | netlify/functions/utils/cors-headers.js:103-109 | a preflight from a refused origin is answered without an Allow-Origin header, so the browser blocks the real request |
| Cors.CreateCorsErrorResponse | netlify/functions/utils/cors-headers.js:116-128 | status 403 with the fixed refusal text as the error; the message appears as details exactly in development, and without a message the details are "CORS policy: Origin not allowed" |
| Cors.ProductionHidesCorsDetails | netlify/functions/utils/cors-headers.js:116-128 | outside development the refusal carries no details and is the same whatever message is given |
| ErrorHandler.DetailsOf | netlify/functions/utils/error-handler.js:46 | the details are the error's truthy message, else a non-empty string error itself, else the error object, else "Unknown error" |
| ErrorHandler.StackHead | netlify/functions/utils/error-handler.js:51 | the stack's lines split on newline, cut to a prefix of at most five lines and of exactly five when there are that many |
| ErrorHandler.CreateErrorResponse | netlify/functions/utils/error-handler.js:24-60 | status defaults to 500, the user message to the generic one, caller headers override the two defaults; outside development no details, code or stack appear; in development the details always do, an error object with a truthy code shows exactly that code and one with a truthy stack shows exactly its first five lines, and neither appears otherwise |
| ErrorHandler.ProductionHidesErrors | netlify/functions/utils/error-handler.js:44-53 | in production the response does not depend on the error at all |
| ErrorHandler.CallerHeadersWin | netlify/functions/utils/error-handler.js:25-29 | a caller's Content-Type replaces the default one |
| ErrorHandler.CreateDatabaseErrorResponse | netlify/functions/utils/error-handler.js:68-79 | always 500 with the database default message, and no details in production |
| ErrorHandler.DatabaseErrorIsGeneralError | netlify/functions/utils/error-handler.js:24-79 | the database response is the general error response at status 500 with the database default message; it shows the error's details in development and is the same for every error in production |
| ErrorHandler.CreateAuthErrorResponse | netlify/functions/utils/error-handler.js:87-89 | status defaults to 401 and the message to the authentication one; no error code or stack; in development the details read "Unknown error" |
| ErrorHandler.AuthErrorIsGeneralError | netlify/functions/utils/error-handler.js:24-89 | the authentication response is the general error response with no error and status 401 by default, and in production it equals the general response for any error |
| ErrorHandler.CreateValidationErrorResponse | netlify/functions/utils/error-handler.js:97-115 | always 400; the errors are listed if and only if in development or given as a list, a single error wrapped in a one-element list |
| ErrorHandler.ValidationListingByShape | netlify/functions/utils/error-handler.js:97-115 | in production a list of errors is shown as given and a single error is hidden, so two single errors give the same response; in development every error is listed, a single one alone |
| ErrorHandler.FirstMatchFrom | netlify/functions/utils/error-handler.js:150-154 | the first table entry from position k whose key occurs in the message ignoring case, or none when no later key occurs |
| ErrorHandler.SanitizeErrorMessage | netlify/functions/utils/error-handler.js:121-158 | the result is always one of the table's messages; a falsy message gives the default; otherwise the message of the first key (in table order) contained in it ignoring case, and the default when no key is |
| ErrorHandler.SanitizeHidesAccountExistence | netlify/functions/utils/error-handler.js:123-124 | a "user not found" message is shown as the same text as a wrong password |
| RateLimiter.CeilSeconds | netlify/functions/utils/rate-limiter.js:99 | the least whole number of seconds covering the remaining milliseconds |
| RateLimiter.CheckRateLimit | netlify/functions/utils/rate-limiter.js:68-107 | a missing or expired window restarts at count 1 and is allowed with the window reset; a live one counts one more and is allowed if and only if the new count is within the limit, with remaining clamped at zero and the retry delay rounded up to seconds; no other identifier's entry changes |
| RateLimiter.ResetRateLimit | netlify/functions/utils/rate-limiter.js:113-115 | the identifier is forgotten and every other entry kept |
| RateLimiter.ResetStartsFresh | netlify/functions/utils/rate-limiter.js:78-92 | the next call after a reset is allowed and starts a new window at count 1 |
| RateLimiter.Cleanup | netlify/functions/utils/rate-limiter.js:38-45 | the sweep keeps exactly the entries whose window had not passed, unchanged |
| RateLimiter.CleanupInvisible | netlify/functions/utils/rate-limiter.js:38-45 | a sweep at an earlier instant changes neither a later decision nor the identifier's new entry |
| RateLimiter.RunWithinWindow | netlify/functions/utils/rate-limiter.js:94-106 | within one window the k-th further call is allowed if and only if the calls so far plus k plus one stay within the limit |
| RateLimiter.FirstCallsAllowed | netlify/functions/utils/rate-limiter.js:68-106 | starting from no live window, exactly the first maxRequests calls inside the new window are allowed |
| RateLimiter.ClientIp | netlify/functions/utils/rate-limiter.js:52-58 | the first trimmed x-forwarded-for entry when non-blank, else x-nf-client-connection-ip, else client-ip, else "unknown"; never empty |
| RateLimiter.ClientIpAgreesWithWebhooks | netlify/functions/utils/rate-limiter.js:52-58 | the limiter and the webhooks read the same address from a non-blank x-forwarded-for, but an address sent only as x-nf-client-connection-ip is seen by the limiter and is "unknown" to the webhooks |
| RateLimiter.CreateRateLimitResponse | netlify/functions/utils/rate-limiter.js:122-138 | status 429, the limit header is "5" and remaining "0" whatever the options, and Retry-After is `retryAfter.toString()`: the decimal digits, after a minus sign when negative |
| RateLimiter.RetryAfterReadBack | netlify/functions/utils/rate-limiter.js:127 | the Retry-After header reads back as the delay it was written from, its sign included |
| RateLimiter.ApplyRateLimit | netlify/functions/utils/rate-limiter.js:147-167 | the counter keyed on address and path is updated either way; no response exactly when that check allows, otherwise a 429 carrying its retry delay |
| RateLimiter.PathsCountedSeparately | netlify/functions/utils/rate-limiter.js:155-157 | a request to one path leaves another path's counter for the same address untouched |
| LineCommon.VerifySignature | netlify/functions/utils/line-webhook-common.js:17-28 | false when the channel secret or the signature is missing or empty; otherwise true if and only if the signature equals the digest of the body under the secret |
| LineCommon.SignedBodyVerifies | netlify/functions/utils/line-webhook-common.js:17-28 | a body signed with the channel secret verifies and any other signature is refused |
| LineCommon.ExtractBrowser | netlify/functions/utils/line-webhook-common.js:35-44 | each family exactly in terms of the tokens of the lower-cased User-Agent, in the source's order: edge with "edg/", chrome with "chrome/" but not "edg/", firefox, then safari, then line, then opera ("opera/" or "opr/"), each only when no earlier token occurs, and unknown exactly when no token occurs |
| LineCommon.ExtractBrowserCaseInsensitive | netlify/functions/utils/line-webhook-common.js:36 | the family of a User-Agent and of its lower-cased form agree |
| LineCommon.ExtractBrowserSameLower | netlify/functions/utils/line-webhook-common.js:36 | User-Agents equal up to case have the same family |
| LineCommon.Header | netlify/functions/utils/line-webhook-common.js:63 | present exactly when the header was sent, with its value |
| LineCommon.IpFromNames | netlify/functions/utils/line-webhook-common.js:62-69 | the first entry of the first truthy header in the given priority order, or "unknown" when none is truthy |
| LineCommon.ClientIpFromHeaders | netlify/functions/utils/line-webhook-common.js:51-70 | the trimmed first comma-separated entry of the first truthy header among the seven, in their listed order; "unknown" when none is truthy |
| LineCommon.ForwardedForWins | netlify/functions/utils/line-webhook-common.js:52-65 | a truthy x-forwarded-for decides the address whatever the other headers say |
| LineCommon.UnknownNotOnlyWhenMissing | netlify/functions/utils/line-webhook-common.js:62-69 | a present header whose value is the text "unknown" gives "unknown" too, so that result does not prove the headers were missing |
| LineCommon.UnknownEntry | netlify/functions/utils/line-webhook-common.js:65 | the first entry of the text "unknown" is itself |
| LineCommon.PlainEntry | netlify/functions/utils/line-webhook-common.js:65 | a value without commas or surrounding white space is its own first entry |
| LineCommon.BlankFirstEntry | netlify/functions/utils/line-webhook-common.js:62-66 | a present header whose first entry is blank yields the empty address, not "unknown" |
| LineCommon.GetOrCreateLineUser | netlify/functions/utils/line-webhook-common.js:200-253 | a known LINE user is refreshed with the profile fields, keeping id and service code, or returned unchanged when the update fails; an unknown one is inserted with the new id and the service code, and a failed insert is an error; the table gains exactly that user's key |
| LineCommon.GetOrCreateStable | netlify/functions/utils/line-webhook-common.js:204-230 | after a successful call, a second call for the same LINE user cannot fail and returns the same user id and service code |
| Attribution.RequestOf | netlify/functions/line-webhook-taskmate.js:212-213 | the follower's address is what the proxy headers report and the User-Agent is the header's value, or empty without one |
| Attribution.IpPoints | netlify/functions/line-webhook-taskmate.js:241-244 | 10 points if and only if the stored address equals the request's and that is not "unknown" (and, for the main webhook, not empty); otherwise 0 |
| Attribution.UaPoints | netlify/functions/line-webhook-taskmate.js:246-258 | one of 0, 3, 7 or 10, and non-zero only when both sides have a User-Agent; 10 if and only if they are equal up to case; 7 only when both mention "line"; 3 only for the same browser family, a known one where the webhook demands it |
| Attribution.TimePoints | netlify/functions/line-webhook-taskmate.js:260-262 | the recency points are max(0, 10 - age): never negative, at most 10 for a non-negative age |
| Attribution.Score | netlify/functions/line-webhook-taskmate.js:238-278 | for a non-negative age the score lies in [-50, 70]; a penalised visit scores at most 5 and an unpenalised one at least 0 |
| Attribution.PenaltyExcludesLinkBonus | netlify/functions/line-webhook-taskmate.js:267-278 | the tracking-link bonus and the official-site penalty never both apply |
| Attribution.SessionAddsTwenty | netlify/functions/line-webhook-taskmate.js:264-265 | a session id adds exactly 20 points, whatever else the visit carries |
| Attribution.TrackingLinkLiftsPenalty | netlify/functions/line-webhook-taskmate.js:267-278 | a tracking link adds 15 points and removes the penalty the same visit would otherwise get |
| Attribution.UnknownFamiliesMatch | netlify/functions/line-webhook-subsidy.js:293-304 | two different User-Agents of unknown family still earn the +3 family match in the two service webhooks, and nothing in the main one |
| Attribution.TaskmateSubsidyAgree | netlify/functions/line-webhook-subsidy.js:284-330 | the two service webhooks score a visit alike unless its referrer names one of their own sites |
| Attribution.MainNeverScoresHigher | netlify/functions/line-webhook.js:422-510 | the main webhook's stricter rule never scores a visit above the taskmate rule |
| Attribution.SelectPrefix | netlify/functions/line-webhook-taskmate.js:235-284 | the running best of the first n scores is at least every one of them; a chosen position holds a positive score strictly above every earlier one; none is chosen only with a best of 0 |
| Attribution.SelectBest | netlify/functions/line-webhook-taskmate.js:235-286 | a chosen position is the first maximum and is above zero; none is chosen if and only if no score is positive |
| Attribution.FirstBestUnique | netlify/functions/line-webhook-taskmate.js:280-283 | at most one position is the first positive maximum |
| Attribution.SelectBestIsFirstBest | netlify/functions/line-webhook-taskmate.js:280-286 | whenever a first positive maximum exists, the scan chooses exactly it |
| Attribution.Candidates | netlify/functions/line-webhook-taskmate.js:220-225 | the candidates are exactly the unlinked visits at most ten minutes old, in table order |
| Attribution.CandidatesPreservesOrder | netlify/functions/line-webhook-taskmate.js:220-225 | the candidates of two tables joined are the first table's candidates followed by the second's, and one visit is a candidate exactly when it is unlinked and at most ten minutes old, so the filter keeps the newest-first order |
| Attribution.LinkUserToVisit | netlify/functions/line-webhook-taskmate.js:207-305 | a failed query or update links nothing; otherwise the linked visit is the first best-scoring candidate, one is always linked when some candidate scores above zero, none when none does, and the only write sets that visit's LINE user id |
| Attribution.LinkedVisitIsBest | netlify/functions/line-webhook-taskmate.js:280-294 | the linked visit is an unlinked recent row of the table, scores above zero and at least as high as every other candidate |
| Attribution.LinkedVisitBeatsNewer | netlify/functions/line-webhook-taskmate.js:280-294 | the linked visit scores strictly higher than every candidate newer than it, so a tie goes to the newest visit |
| Attribution.ApplyVisitLink | netlify/functions/line-webhook-taskmate.js:287-290 | the update sets the LINE user id of the rows with that id and leaves every other row unchanged |
| Attribution.LinkedVisitLeavesPool | netlify/functions/line-webhook-taskmate.js:220-225 | after the link is written the linked visit is no candidate any more, so no visit is credited twice |
| Attribution.NewestPrefix | netlify/functions/line-webhook.js:337-343 | among the first n sessions, the first eligible one with the newest activity, or none when none is eligible |
| Attribution.NewestUnmatchedSession | netlify/functions/line-webhook.js:337-345 | the first unlinked session active within two hours whose activity is the newest; none if and only if no session is eligible |
| Attribution.ApplySessionLink | netlify/functions/line-webhook.js:350-357 | the tier-1 update sets the LINE user id, friend time and last activity of the sessions with that id, with nothing else changed in them or in any other session |
| Attribution.SessionTier | netlify/functions/line-webhook.js:337-383 | tier 1 credits the newest eligible session exactly when the query and the update succeed and one is eligible, writing that session's link and a line_friend funnel step, and never a visit |
| Attribution.MainLinkAsWritten | netlify/functions/line-webhook.js:331-574 | as written, the main webhook never credits a visit: whatever the sessions say, the visit tier reports no link |
| Attribution.MainLinkCorrected | netlify/functions/line-webhook.js:384-545 | with the headers in scope, a session credited by tier 1 ends the search; otherwise the visit scan runs under the main webhook's rule |
| Attribution.MainTierTwoUnreachable | netlify/functions/line-webhook.js:391 | one fresh visit with a session id and no session to match: the written code credits nothing, the corrected one credits that visit |
| Conversions.NewestLinkedVisit | netlify/functions/line-webhook-taskmate.js:311-317 | the first row of the newest-first table linked to the LINE user, or none when no row is |
| Conversions.RecordConversion | netlify/functions/line-webhook-taskmate.js:308-360 | the ledger grows by at most one row; a row is added exactly when the insert succeeds, the newest visit linked to the LINE user carries a known tracking link and the user has no conversion through that link yet, and it is then the friend_add row for the user, the link's agency, the link and the service; without such a visit nothing changes |
| Conversions.RecordConversionIdempotent | netlify/functions/line-webhook-subsidy.js:372-383 | recording again after a successful recording adds nothing |
| Conversions.RecordConversionKeepsKeysUnique | netlify/functions/line-webhook-taskmate.js:326-349 | the check-then-insert keeps (user, tracking link) pairs unique in the ledger |
| Conversions.LinkService | netlify/functions/line-webhook.js:598-608 | a link's service id when it has a non-empty one, else none |
| Conversions.VisitConversion | netlify/functions/line-webhook.js:535-537 | the ledger is unchanged or gains exactly the line_friend row of the visit; it gains it if and only if the visit has both a tracking link and an agency, no line_friend row exists for that link and LINE user, and the insert succeeds; the row's value is 0 and its agency the visit's |
| Conversions.VisitConversionIdempotent | netlify/functions/line-webhook.js:584-596 | a second visit conversion for the same visit and LINE user adds nothing |
| Conversions.SessionConversion | netlify/functions/line-webhook.js:661-714 | the ledger is unchanged or gains exactly the session's line_friend row, and gains it if and only if the session has an agency, has no line_friend row yet and the insert succeeds |
| Conversions.SessionConversionKeepsKeysUnique | netlify/functions/line-webhook.js:663-673 | the session check-then-insert keeps each session's line_friend row unique |
| LineWebhooks.HandleWebhook | netlify/functions/line-webhook-taskmate.js:19-96 | a preflight gets 200 and a non-POST 405, with nothing dispatched; a POST is answered 200 if and only if the signature verifies and the body has an event list, 401 on a bad signature; on 200 every event is dispatched; the external forward happens exactly for a first-hop request with a configured URL, the Render forward exactly for a first-hop request with a message event outside the subsidy webhook |
| LineWebhooks.ForwardedRequestsStop | netlify/functions/line-webhook-subsidy.js:54-70 | a request that carries x-forwarded-from is forwarded nowhere, so two deployments cannot loop |
| LineWebhooks.OnlyAuthenticBodiesAct | netlify/functions/line-webhook.js:41-83 | nothing is dispatched or forwarded unless the channel secret is set and the signature is the body's digest under it |
| LineWebhooks.Dispatch | netlify/functions/line-webhook-subsidy.js:89-110 | follow, unfollow and message reach their handlers in all three webhooks, postback only in the subsidy one, and every other type is ignored |
| LineWebhooks.HandleServiceFollow | netlify/functions/line-webhook-subsidy.js:113-148 | without a profile, or when the user insert fails, nothing changes; the welcome reply is sent if and only if it is the subsidy webhook, the event has a reply token and the user was upserted; a linked visit is an unlinked recent row of the table; the visit count is kept and the ledger grows by at most one row |
| LineWebhooks.LinkFollower | netlify/functions/line-webhook-taskmate.js:142 | the visit linked is an unlinked recent row, and the table afterwards differs only by that visit's link |
| LineWebhooks.NewestLinkedAfterLink | netlify/functions/line-webhook-taskmate.js:311-317 | after linking a row for a LINE user with no earlier link, that row is the newest linked to them |
| LineWebhooks.FollowCreditsLinkedVisit | netlify/functions/line-webhook-taskmate.js:138-145 | a follow that links a fresh visit carrying a known tracking link records exactly one friend_add row for that link and the upserted user when the user has none through it yet, and nothing otherwise |
| LineWebhooks.HandleMainFollow | netlify/functions/line-webhook.js:138-271 | without a profile nothing happens; an agency's own LINE account activates that agency exactly when it is not active and the update succeeds, with no profile write, link-up or conversion; otherwise link-up runs if and only if a new profile was inserted, the session conversion follows a matched session, and the ledger changes only then |
| LineWebhooks.ActiveAgencyFollowIsNoOp | netlify/functions/line-webhook.js:162-172 | a follow by an already active agency's LINE account changes nothing at all |
| LineWebhooks.ReturningFollowerNotRelinked | netlify/functions/line-webhook.js:215-238 | a follower with an existing profile is never re-attributed and no conversion is recorded |
| BotDetector.IpStep | netlify/functions/utils/bot-detector.js:93-113 | an address matching no crawler prefix leaves the scan unchanged; a match adds 80 exactly once and names a bot type, `facebook_crawler` for the Facebook ranges |
| BotDetector.Confirm | netlify/functions/utils/bot-detector.js:153-177 | the first crawler pattern adds 60 only outside the social-app whitelist and always records the confirmed or ignored verdict; a bot type the address named is kept, otherwise the type the User-Agent names is taken and its naming reason follows the verdict |
| BotDetector.UaBotType | netlify/functions/utils/bot-detector.js:161-177 | the User-Agent names no type exactly when it is whitelisted and mentions neither Google nor LinkedIn; on the whitelist only Googlebot or LinkedIn can be named; Googlebot and LinkedIn are named only when the User-Agent mentions them; the address-only types are never named |
| BotDetector.CountMarkers | netlify/functions/utils/bot-detector.js:139-140 | the number of crawler patterns a User-Agent matches is zero exactly when none matches |
| BotDetector.UaScan | netlify/functions/utils/bot-detector.js:139-182 | under the Facebook app exception every matching pattern costs 30 and adds one "Facebook App user detected" reason, keeping the bot type; otherwise no match changes nothing and a match gives exactly the first-match verdict of Confirm |
| BotDetector.Heuristics | netlify/functions/utils/bot-detector.js:186-197 | a User-Agent under 20 characters adds 10, one with no browser indicator adds 20, and the bot type is untouched |
| BotDetector.DetectBot | netlify/functions/utils/bot-detector.js:87-211 | confidence is capped at 100, the visit is a bot exactly when confidence reaches 50, no address and no User-Agent is a clean zero verdict, a listed address always names a bot type (`facebook_crawler` for Facebook ranges); without a listed address the type is the one the first crawler pattern names outside the app exception, with its verdict and naming reasons among the reasons, and none without a User-Agent |
| BotDetector.UaStepNaming | netlify/functions/utils/bot-detector.js:116-198 | with no bot type yet, the whitelist, pattern loop and heuristics leave the type and reasons the first crawler pattern names, or no type |
| BotDetector.GooglebotNamedByUserAgent | netlify/functions/utils/bot-detector.js:87-211 | the bare `Googlebot/2.1` User-Agent without an address is a `googlebot` with confidence 90 and the reasons confirmed, Google bot, suspiciously short, missing browser indicators, in that order |
| BotDetector.ReasonText | netlify/functions/utils/bot-detector.js:209 | with no reasons collected the reason is the normal-user text; otherwise it is the reasons joined by "; ", and every collected reason occurs in it |
| BotDetector.JoinReasons | netlify/functions/utils/bot-detector.js:209 | joining a non-empty reason list gives a lone reason unchanged, starts with the first reason, and contains every reason |
| BotDetector.NothingIsNormal | netlify/functions/utils/bot-detector.js:87-211 | a visit with no address and an empty User-Agent is not a bot and reports the normal-user reason |
| BotDetector.IsBot | netlify/functions/utils/bot-detector.js:220-223 | the simple check agrees with the detector's 50-point threshold |
| BotDetector.FacebookAppIsHuman | netlify/functions/utils/bot-detector.js:139-151 | a crawler marker next to the app's own FBAN/FBAV token is never a bot, whatever the address, with confidence at most 20 |
| BotDetector.ExceptionCostsSixty | netlify/functions/utils/bot-detector.js:131-151 | under the app exception the User-Agent rules lower the confidence by at least 60 (the whitelist's 50 plus at least one 30) |
| BotDetector.ExceptionHasCrawlerMarker | netlify/functions/utils/bot-detector.js:145 | the exception's crawler marker is itself one of the crawler patterns, so the exception branch is reachable |
| BotDetector.ExceptionIsSocial | netlify/functions/utils/bot-detector.js:121-131 | the exception's FBAN/FBAV token also puts the User-Agent on the whitelist |
| BotDetector.AppTokensLowered | netlify/functions/utils/bot-detector.js:124-125 | the case-sensitive app tokens lower-case to the whitelist's case-insensitive markers |
| BotDetector.ShortUaHasNoException | netlify/functions/utils/bot-detector.js:145-186 | the app exception needs at least 20 characters, so it never meets the short-User-Agent penalty |
| BotDetector.LowerContains | netlify/functions/utils/bot-detector.js:117 | a substring survives lower-casing of both strings |
| BotDetector.NoUpperAfterLower | netlify/functions/utils/bot-detector.js:145 | a string that is the crawler marker up to case cannot also hold the upper-case app token |
| BotDetector.CrawlerUaIsBot | netlify/functions/utils/bot-detector.js:139-203 | a User-Agent with a crawler marker, off the whitelist and without the app exception, is always a bot |
| BotDetector.SocialAppNeverConfirmed | netlify/functions/utils/bot-detector.js:153-158 | a whitelisted in-app browser never earns the crawler confirmation |
| BotDetector.ConfidenceCanBeNegative | netlify/functions/utils/bot-detector.js:131-201 | confidence is only capped above: a plain in-app browser reports −50 |
| BotDetector.NoCrawlerMarkerNoException | netlify/functions/utils/bot-detector.js:139-145 | the app exception is only reached through a crawler pattern |
| BotDetector.MozillaIsBrowser | netlify/functions/utils/bot-detector.js:192-194 | a User-Agent naming Mozilla escapes the missing-indicator penalty |
| BotDetector.SocialUaStep | netlify/functions/utils/bot-detector.js:116-198 | a whitelisted, crawler-free, browser-like User-Agent of normal length loses exactly the whitelist's 50 |
| BotDetector.FilterBotVisits | netlify/functions/utils/bot-detector.js:231-240 | a non-list is returned as is; a list keeps exactly the visits the detector does not call bots |
| BotDetector.Humans | netlify/functions/utils/bot-detector.js:236-239 | the kept visits are exactly the non-bot visits of the list, never more than the list |
| BotDetector.HumansPreservesOrder | netlify/functions/utils/bot-detector.js:236-239 | the filter keeps the original order: filtering a concatenation concatenates the filtered parts, and one visit is kept exactly when it is not a bot |
| BotDetector.Increment | netlify/functions/utils/bot-detector.js:266-267 | counting one more bot of a type raises that type's count by one and leaves every other type's count unchanged; the total rises by one, the type is a key at most once, and a new type is appended at the end with count 1 |
| BotDetector.Tally | netlify/functions/utils/bot-detector.js:259-269 | every visit is counted as a bot or a human; each type's count grows by exactly the number of visits detected as bots reported under that type ("unknown" when none is named); no type is listed twice, and the humans counted are the visits the filter keeps |
| BotDetector.GetBotStats | netlify/functions/utils/bot-detector.js:248-278 | a missing or empty list gives all zeros; otherwise bots plus humans equal the total, each type's count is exactly the number of visits detected as bots reported under that type, the counts sum to the bots and name each type once |
| BotDetector.StatsAgreeWithFilter | netlify/functions/utils/bot-detector.js:231-277 | the human count of the statistics equals the length of the filtered list |
| TrackRedirect.TrackingCode | netlify/functions/track-redirect.js:23-24 | the code is the part of the path after its last '/': a slash-free suffix of the path, preceded by a '/' unless it is the whole path |
| TrackRedirect.TrailingSlashHasNoCode | netlify/functions/track-redirect.js:23-29 | a path ending in '/' is refused as missing its tracking code |
| TrackRedirect.MatchingRows | netlify/functions/track-redirect.js:67-68 | the candidate rows are exactly the table's active rows carrying the code |
| TrackRedirect.FindLink | netlify/functions/track-redirect.js:55-81 | a failed query finds nothing; a link is found exactly when one active row carries the code, and it is that row |
| TrackRedirect.InactiveLinkNotFound | netlify/functions/track-redirect.js:67-103 | a link that is found is active and carries the requested code |
| TrackRedirect.DeviceType | netlify/functions/track-redirect.js:286-293 | no User-Agent is "unknown"; otherwise mobile, tablet, bot and desktop are decided by the first of the case-insensitive markers present, each outcome stated both ways |
| TrackRedirect.UserBrowser | netlify/functions/track-redirect.js:295-304 | no User-Agent is "unknown"; Chrome, Safari, Firefox, Edge and LINE are each returned exactly under their ordered marker conditions, and "other" exactly when no marker is present |
| TrackRedirect.UserOs | netlify/functions/track-redirect.js:306-315 | no User-Agent is "unknown"; each system is returned exactly when its markers are present and no earlier system's are |
| TrackRedirect.AndroidReportedAsLinux | netlify/functions/track-redirect.js:311-312 | an Android User-Agent that also names Linux is recorded as Linux, never Android |
| TrackRedirect.IphoneReportedAsMac | netlify/functions/track-redirect.js:310-313 | an iPhone User-Agent naming "Mac OS X" is recorded as macOS, never iOS |
| TrackRedirect.ChromiumEdgeClassifiersDisagree | netlify/functions/track-redirect.js:298-301 | a Chromium Edge User-Agent ("Edg/" without "edge") is recorded as Chrome here although the webhooks' browser family calls it Edge |
| TrackRedirect.SessionId | netlify/functions/track-redirect.js:282-284 | the session id starts with "sess_", the clock's base-36 digits follow it and parse back to the clock, and at most nine random characters come after them |
| TrackRedirect.NextVisitCount | netlify/functions/track-redirect.js:172 | the stored count goes up by one, and a missing count becomes 1 |
| TrackRedirect.Destination | netlify/functions/track-redirect.js:184 | the service's LINE URL when it is set, otherwise the link's own destination |
| TrackRedirect.OptionalsMiss | netlify/functions/track-redirect.js:218-222 | a key that none of the conditional parameters uses is not found among them |
| TrackRedirect.OptionalsReadBack | netlify/functions/track-redirect.js:218-222 | with distinct keys, each conditional parameter reads back its own value when it is set and is absent otherwise |
| TrackRedirect.UtmKeysDistinct | netlify/functions/track-redirect.js:218-222 | the five UTM parameter names are pairwise different |
| TrackRedirect.UtmReadBack | netlify/functions/track-redirect.js:218-222 | each UTM field reads back from the UTM parameters exactly when the link has it |
| TrackRedirect.SkipFixed | netlify/functions/track-redirect.js:213-222 | a UTM key is not shadowed by the three fixed parameters |
| TrackRedirect.FixedReadBack | netlify/functions/track-redirect.js:213-215 | tid, sid and aid read back as the code, the session id and the agency id, whatever follows them |
| TrackRedirect.OptionalHit | netlify/functions/track-redirect.js:218-222 | a conditional parameter reads back its value when set, and is skipped when not |
| TrackRedirect.OptionalSkip | netlify/functions/track-redirect.js:218-222 | a conditional parameter never answers a lookup of another key |
| TrackRedirect.RedirectParamsReadBack | netlify/functions/track-redirect.js:210-222 | the destination reads back exactly the attribution sent: code, session, agency, and each UTM field precisely when the link has it |
| TrackRedirect.HandleTrackRedirect | netlify/functions/track-redirect.js:16-280 | a missing code or no single active link is a 404 with no writes; otherwise the visit row written is exactly the one built from the link, the code, the request headers and the generated session, the count is incremented, and the response is a 302 exactly when a destination is set and parses, carrying the attribution parameters and a 30-day cookie with the same session, else a 500 |
| TrackRedirect.VisitRowFor | netlify/functions/track-redirect.js:113-147 | the visit row carries the link's id and agency, its service only when truthy, x-forwarded-for unless empty and then client-ip as the address, the User-Agent as sent, referer unless empty and then referrer, the device, browser and OS classifications of that User-Agent, the session, the tracking code and no LINE user |
| TrackRedirect.RedirectCarriesSession | netlify/functions/track-redirect.js:126-241 | on a redirect the visit row, the URL's sid and the cookie share one well-formed session id, and the URL's tid is the path's code |
| AgencyAuth.BearerToken | netlify/functions/agency-link-visits.js:35-46 | a token exists exactly when the header is present and starts with "Bearer ", and the header is that prefix followed by the token |
| AgencyAuth.CheckAgencyHeader | netlify/functions/agency-link-visits.js:35-256 | no bearer token or a malformed one is 401, the library's other token errors are 500, and a verified token passes exactly when the `x-agency-id` header is present and equals the token's agency |
| AgencyAuth.TokenBindsAgency | netlify/functions/agency-link-visits.js:50-58 | a token verified for one agency never passes for another agency's header |
| LinkVisits.InferenceMap | netlify/functions/agency-link-visits.js:146-152 | every key in the map belongs to a linked visit and maps to the user of the last linked visit with that key, and every linked visit's key is in the map |
| LinkVisits.RecordKeepsLastWriter | netlify/functions/agency-link-visits.js:147-152 | one more row of the loop keeps the map equal to "last writer wins" over the rows seen so far |
| LinkVisits.EarlierCarrierStaysLast | netlify/functions/agency-link-visits.js:147-152 | a newer row without the key leaves the earlier last writer of that key in place |
| LinkVisits.InferenceIsLastWriter | netlify/functions/agency-link-visits.js:146-158 | an unlinked visit is inferred to belong to the user of the last linked visit with exactly its address and User-Agent |
| LinkVisits.InferenceNeedsKey | netlify/functions/agency-link-visits.js:146-158 | a key that no linked visit carries has no inferred user |
| LinkVisits.OwnIds | netlify/functions/agency-link-visits.js:112-116 | the bulk-fetched ids are exactly the non-null LINE user ids the page's visits carry |
| LinkVisits.Matched | netlify/functions/agency-link-visits.js:134-158 | only a visit without its own user is matched, and only to the non-empty user the map holds under its key |
| LinkVisits.EffectiveId | netlify/functions/agency-link-visits.js:193 | a visit's own user wins; otherwise the user matched by key |
| LinkVisits.KnownProfile | netlify/functions/agency-link-visits.js:119-174 | a profile is available exactly when it exists and either it belongs to a visit's own user and the bulk query worked, or it belongs to a matched user who is not among the own users |
| LinkVisits.ProfileFor | netlify/functions/agency-link-visits.js:192-194 | a visit without an effective user has no profile; otherwise its profile is the known profile of that user |
| LinkVisits.Format | netlify/functions/agency-link-visits.js:192-218 | the visit is kept as is, its listed user is the effective one, the friend label is present exactly when the effective user's profile is known and says "existing" exactly when that profile predates the link's first visit, and the display name and picture are the profile's when truthy |
| JsText.NumberOr | netlify/functions/agency-link-visits.js:88-89 | `x || d` on a number: a present non-zero number is used, and a missing number (or NaN) or a zero falls back to the default, so `parseInt(limit) || 50` never keeps a zero limit |
| JsText.IntToString | netlify/functions/utils/rate-limiter.js:127 | `toString` of an integer is non-empty, starts with a minus sign exactly when negative, and its digits read back as the magnitude |
| LinkVisits.ListLinkVisits | netlify/functions/agency-link-visits.js:10-258 | OPTIONS is 200, other methods but GET are 405, the token gate's refusals pass through, a missing link id is 400 and another agency's link 404; for an owned link a failed page query is 500 and a loaded page 200; a success lists every visit of the page in order, each formatted with its effective user (its own, else the one the inference map matches when some visit lacks a user), that user's known profile and the first visit's time (now when there is none), with the default limit 50 and offset 0, and says there is more exactly when offset plus limit is below the total |
| LinkVisits.OwnUserWins | netlify/functions/agency-link-visits.js:146-193 | a visit's own user is never replaced; an unlinked visit gets no user when no linked visit shares its key, and the last such visit's user when one does |
| AgencyServices.Coalesce | netlify/functions/agency-services.js:115-119 | the first value unless it is null, so a zero or false setting is kept |
| AgencyServices.FindAgency | netlify/functions/agency-services.js:58-70 | an agency is found only when the query worked and exactly one row has the token's agency id, and it is that row |
| AgencyServices.WithId | netlify/functions/agency-services.js:58-62 | the rows kept are exactly the rows with the id |
| AgencyServices.ActiveServices | netlify/functions/agency-services.js:81-85 | the services listed are exactly the active ones, in the queried order |
| AgencyServices.ActiveServicesPreservesOrder | netlify/functions/agency-services.js:81-85 | the query is an order-preserving filter: listing a concatenation lists each part in turn, and one service is listed exactly when active |
| AgencyServices.FirstSettingFrom | netlify/functions/agency-services.js:108 | the position found is the first at or after the start that holds the agency's setting for the service; none means no later row does |
| AgencyServices.FindSetting | netlify/functions/agency-services.js:108 | the setting used is the first of the agency's settings for the service, and none is used only when there is none |
| AgencyServices.Merge | netlify/functions/agency-services.js:107-121 | the service's identity is kept; each rate the setting gives wins over the default and each it omits falls back to it; the service is active for the agency unless the setting says false |
| AgencyServices.ListAgencyServices | netlify/functions/agency-services.js:12-139 | OPTIONS is 200 and other methods but GET 405; no bearer token or any token error is 401; an unknown agency is 404, an inactive one 403; for an active agency the answer is 500 exactly when the services query failed and 200 otherwise, listing each active service merged with the agency's first setting for it, in order |
| AgencyServices.ZeroRateKept | netlify/functions/agency-services.js:115 | a commission rate of zero set for the agency is listed as zero, not replaced by the default |
| AgencyServices.SettingsErrorShowsDefaults | netlify/functions/agency-services.js:97-121 | when the settings cannot be read the request still succeeds and every service shows its default rates and is active |
| TrackingLinks.FirstOccurrenceFrom | netlify/functions/agency-create-link.js:48 | the offset found is the first at or after the start where the pattern occurs; none means it occurs nowhere from there |
| TrackingLinks.ReplaceFirst | netlify/functions/agency-create-link.js:48 | a string without the pattern is unchanged; otherwise exactly its first occurrence is replaced |
| TrackingLinks.Token | netlify/functions/agency-create-link.js:48 | a token exists exactly when the header does, and is never longer than it |
| TrackingLinks.TokenAgreesWithBearer | netlify/functions/agency-create-link.js:48-51 | on a well-formed `Bearer ` header this endpoint verifies the same token as the other agency endpoints |
| TrackingLinks.BareTokenAccepted | netlify/functions/agency-create-link.js:48-57 | a header without `Bearer ` is verified whole, where the other agency endpoints refuse it |
| TrackingLinks.AgencyCode | netlify/functions/agency-create-link.js:11-14 | the code is at most 12 characters, all base-36 digits when both random texts have the shape of a base-36 fraction, and exactly characters 2-7 of each when both are long enough |
| TrackingLinks.FreeAttemptFrom | netlify/functions/agency-create-link.js:163-176 | the attempt found is the first from the start whose code is free; none means every remaining one of the five attempts was taken |
| TrackingLinks.FreeCode | netlify/functions/agency-create-link.js:158-181 | a code is settled on exactly when one of the five attempts is free, and it is not taken |
| TrackingLinks.UniqueCode | netlify/functions/agency-create-link.js:159-181 | the retry loop succeeds exactly when a free code exists among five attempts, and returns the first free one |
| TrackingLinks.LinkUrls | netlify/functions/agency-create-link.js:89-145 | with a service id the link is accepted exactly when the service exists and is active, pointing at its app redirect URL or else its LINE URL, and is a 400 otherwise; without one it is accepted exactly when `LINE_OFFICIAL_URL` is set and is not the placeholder, and 500 otherwise |
| TrackingLinks.AgencyCreateLink | netlify/functions/agency-create-link.js:16-252 | OPTIONS is 200, other methods but POST 405, a failed CSRF check is refused, no token or no agency header is 401, a token error 401, another agency 403; once admitted, a body that is not JSON is 500, an unknown or inactive service 400 and a missing or placeholder environment URL 500, both before the name is looked at, then a missing name 400, five taken codes 500 and a failed insert 500; a link is stored exactly when all of these pass, belongs to the header's agency and the token's user, copies the body's fields, points where the service or environment says, has a free code and starts active with zero counts |
| TrackingLinks.ServiceLinkDestination | netlify/functions/agency-create-link.js:93-201 | a link stored for a service points at the app redirect URL when it has one and otherwise at the LINE URL |
| TrackingLinks.ConfigurationCheckedBeforeName | netlify/functions/agency-create-link.js:127-156 | without a service id and without `LINE_OFFICIAL_URL`, a request missing its name gets 500 rather than 400 |
| TrackingLinks.ExhaustedCodesFail | netlify/functions/agency-create-link.js:163-251 | when all five drawn codes are taken the request fails with 500 and nothing is stored |
| TrackingLinks.Alphabet | netlify/functions/create-tracking-link.js:189 | the alphabet has 62 characters: upper-case letters, then lower-case letters, then digits |
| TrackingLinks.CharAt | netlify/functions/create-tracking-link.js:193 | one character exactly when the index is inside the string, namely the character there; otherwise the empty string |
| TrackingLinks.PickChar | netlify/functions/create-tracking-link.js:193 | a draw in [0, 1) picks exactly one alphanumeric character |
| TrackingLinks.Picks | netlify/functions/create-tracking-link.js:192-194 | n draws give at most n characters, and exactly n alphanumeric ones when every draw is in [0, 1) |
| TrackingLinks.GenerateTrackingCode | netlify/functions/create-tracking-link.js:188-197 | the loop builds the eight-pick code, which is eight alphanumeric characters when the draws are in range |
| TrackingLinks.TrimOrNull | netlify/functions/create-tracking-link.js:129-131 | null exactly when the field is missing or blank, otherwise the trimmed text, which starts and ends with a non-space |
| TrackingLinks.FormCode | netlify/functions/create-tracking-link.js:105-118 | a free first code is kept; a taken one is replaced by a second code followed by the last three digits of the clock |
| TrackingLinks.RetriedCodeLength | netlify/functions/create-tracking-link.js:117 | a retried code is 11 characters: eight picks and three clock digits |
| TrackingLinks.CreateTrackingLink | netlify/functions/create-tracking-link.js:9-185 | OPTIONS is 200, other methods but POST 405, an unreadable body 500; a missing name, service id or agency id, or no active service, is 400; otherwise the row is stored exactly when the insert works, with the trimmed name, the trimmed-or-null UTM fields, the service's LINE URL and the form's code |
| TrackingLinks.RetriedCodeNotRechecked | netlify/functions/create-tracking-link.js:108-138 | the retried code is not looked up again, so a taken retry is still the code inserted |
| TrackingLinks.BlankNameStoredEmpty | netlify/functions/create-tracking-link.js:45-127 | a name of only spaces passes the required-field check and is stored empty |
| Invoice.EligibleRows | netlify/functions/invoice-generate.js:83-96 | the statement's commissions are exactly the agency's approved commissions for exactly that period, in table order |
| Invoice.EligibleRowsPreservesOrder | netlify/functions/invoice-generate.js:83-96 | the query is an order-preserving filter: the rows of a concatenation are each part's rows in turn, and one commission is kept exactly when eligible |
| Invoice.SubtotalNonNegative | netlify/functions/invoice-generate.js:113-115 | commissions without negative amounts never sum to a negative subtotal |
| Invoice.TaxAmount | netlify/functions/invoice-generate.js:118-119 | the consumption tax is ten percent of the subtotal rounded down: ten times it lies within ten yen below the subtotal |
| Invoice.WithholdingTax | netlify/functions/invoice-generate.js:122-136 | nothing is withheld from a non-individual; an individual is shown 10.21% and has 10.21% of the total withheld up to one million yen and 20.42% of the part above it, each rounded down |
| Invoice.WithholdingBounded | netlify/functions/invoice-generate.js:122-136 | the withholding is never negative, never more than the total, and never above 20.42% of it |
| Invoice.WithholdingMonotone | netlify/functions/invoice-generate.js:125-136 | a larger total never has less withheld |
| Invoice.WithholdingContinuousAtThreshold | netlify/functions/invoice-generate.js:128-135 | the two tiers meet without a jump at one million yen |
| Invoice.ComputeAmounts | netlify/functions/invoice-generate.js:113-139 | the subtotal is the sum of the commissions, the tax is ten percent of it rounded down, the withholding rate and amount are the withholding of subtotal plus tax, the total is subtotal plus tax minus withholding, a non-individual has nothing withheld, and with a non-negative subtotal (which non-negative commissions give) tax and withholding are non-negative and the total lies between zero and subtotal plus tax |
| Invoice.YearMonth | netlify/functions/invoice-generate.js:142-144 | the key is all decimal digits, two longer than the year, and reads back as year times 100 plus month |
| Invoice.YearMonthInjective | netlify/functions/invoice-generate.js:142-147 | two different months never share a key |
| Invoice.ItemFor | netlify/functions/invoice-generate.js:193-206 | a line refers to its commission and service, is sorted by its position, has quantity one with price and amount equal to the commission's amount, and is named after the service or the default name |
| Invoice.Items | netlify/functions/invoice-generate.js:193-206 | one line per commission, in the same order |
| Invoice.TotalsAgree | netlify/functions/invoice-generate.js:113-204 | lines whose amounts match the commissions' add up to the commissions' subtotal |
| Invoice.ItemsAddUpToSubtotal | netlify/functions/invoice-generate.js:113-206 | a statement's lines add up to its subtotal |
| Invoice.Ids | netlify/functions/invoice-generate.js:217 | the commissions to link are exactly the statement's commissions' ids, in order |
| Invoice.IssueInvoice | netlify/functions/invoice-generate.js:16-294 | OPTIONS is 200, other methods but POST 405, the token gate's refusals pass through, a missing period is 400, a missing agency or failed commission query 500 and no eligible commission 400, all with nothing stored; a failed number draw or insert is 500 with no statement; once the draft is inserted the answer is 200 exactly when its lines were stored and the PDF made, and 500 with a leftover draft otherwise; a stored statement belongs to the caller's agency, carries the computed figures and drawn number, has one line per eligible commission, links them only when the unchecked link-up worked, and records the email outcome only when the unchecked final update worked |
| Invoice.IssueAnswerIgnoresUncheckedWrites | netlify/functions/invoice-generate.js:216-272 | whether the commission link-up and the final status update worked never changes the status, the lines or the reported `issued` |
| Invoice.FailedUpdateReportsIssuedDraft | netlify/functions/invoice-generate.js:238-272 | when the final update fails the stored statement stays a draft while the answer calls it issued |
| Invoice.FindInvoice | netlify/functions/invoice-resend-email.js:72-85 | a statement is found only when exactly one row has that id within the caller's agency, and it is that row |
| Invoice.OwnedMatches | netlify/functions/invoice-resend-email.js:72-77 | the rows kept are exactly the caller's rows with that id |
| Invoice.AfterSend | netlify/functions/invoice-resend-email.js:122-141 | identity and figures are untouched; a successful send records the recipient and clears the error, moving an issued statement to sent; a failed one records only the failure and its message, keeping the old message when there is none |
| Invoice.ResendInvoiceEmail | netlify/functions/invoice-resend-email.js:16-175 | OPTIONS is 200, other methods but POST 405, the token gate's refusals pass through, a missing invoice id is 400, an unknown or foreign statement 404, a failed line query or PDF 500, no request recipient and no stored contact 400, all without sending; otherwise the mail goes to the request's recipient or else the stored contact, the answer is 200 with whether the send worked, and the row is the after-send row when the unchecked update worked and unchanged otherwise |
| Invoice.ResendAnswerIgnoresUpdate | netlify/functions/invoice-resend-email.js:121-153 | whether the row update after the send worked never changes the status, the success flag or the recipient of the answer |
| Invoice.ResendOnlyAdvances | netlify/functions/invoice-resend-email.js:122-141 | a resend moves the status at most from issued to sent, never backwards, never touches the figures, and a failed send leaves the status and recipient alone |
| Invoice.ResendKeepsDraft | netlify/functions/invoice-resend-email.js:130 | resending a draft, even successfully, does not issue it |
| AdminCommissions.AdminAuthorized | netlify/functions/admin-commissions.js:19-39 | an admin is let in only with a `Basic ` header, and exactly when the decoded text's first ':'-part is the configured or default user name and its second part the configured or default password |
| AdminCommissions.ColonPasswordLocksOut | netlify/functions/admin-commissions.js:30-33 | a configured password containing ':' can never be entered, since only the text between the first and second ':' is compared |
| AdminCommissions.NonEmpty | netlify/functions/admin-commissions.js:43 | the segments kept are exactly the non-empty ones |
| AdminCommissions.PathId | netlify/functions/admin-commissions.js:43-44 | the id is a non-empty, slash-free segment of the path, and there is none exactly when every segment is empty |
| AdminCommissions.RouteFor | netlify/functions/admin-commissions.js:46-75 | GET without an id lists and with one reads; POST creates whatever the path; PUT and DELETE act on the id; every other combination is refused |
| AdminCommissions.ListingUnreachable | netlify/functions/admin-commissions.js:42-48 | a GET on the function's own path reads the commission with id "admin-commissions" instead of listing |
| AdminCommissions.RouteCorrected | netlify/functions/admin-commissions.js:42-75 | the corrected routing agrees with the written one except that the function's own name is not taken as an id |
| AdminCommissions.CorrectedRouteLists | netlify/functions/admin-commissions.js:46-49 | with the correction a GET on the function's own path lists the commissions |
| AdminCommissions.FunctionPathSegments | netlify/functions/admin-commissions.js:43 | the function's own path splits into its four segments |
| AdminCommissions.Gate | netlify/functions/admin-commissions.js:15-75 | OPTIONS is answered first with 200, then a failed admin check is 401; every authorized request is handled with the route its method and path give, and answered 405 exactly when no route fits |
| AdminCommissions.GateRefusesOnlyUnroutedMethods | netlify/functions/admin-commissions.js:46-75 | an authorized request gets 405 exactly when its method is neither GET nor POST and is not a PUT or DELETE on a path naming an id; a POST is always handled as a creation |
| AdminCommissions.FinalRate | netlify/functions/admin-commissions.js:263 | the rate is never zero: the given rate when non-zero, else the service's default when non-zero, else 20 |
| AdminCommissions.FinalAmount | netlify/functions/admin-commissions.js:266-283 | a given non-zero amount wins; otherwise a given profit times the rate percent rounded down; otherwise zero |
| AdminCommissions.ComputedAmountWithinProfit | netlify/functions/admin-commissions.js:266-269 | a computed amount on a positive profit at a rate of at most 100% lies between zero and the profit |
| AdminCommissions.CreateCommission | netlify/functions/admin-commissions.js:205-310 | a missing agency, service, period start or period end is 400; with all four given, an unknown agency or service is 404, a failed insert 500 and a successful one 201; a created row is `pending`, copies the body's keys, has the final rate and amount, and defaults missing or zero conversions, sales and gross profit to 0 |
| AdminCommissions.ZeroRateUsesDefault | netlify/functions/admin-commissions.js:263 | a requested rate of zero is not kept: the service's default applies |
| AdminCommissions.BuildPatch | netlify/functions/admin-commissions.js:313-352 | a truthy status outside the five valid ones is refused; otherwise the patch holds exactly the amount, rate, profit and notes keys the body has and the truthy status and payment fields, each with the body's value, plus the update time |
| AdminCommissions.ApplyPatch | netlify/functions/admin-commissions.js:354-358 | the patched fields are replaced and every other field keeps its value |
| AdminCommissions.UpdateKeepsIdentity | netlify/functions/admin-commissions.js:326-358 | an update never changes the commission's id, agency, service or period, and a null status leaves the stored status alone |
| AdminCommissions.IdentityNotPatchable | netlify/functions/admin-commissions.js:326-352 | no identity or period field is among the keys a patch can hold |
| AdminCommissions.ValidStatusWritten | netlify/functions/admin-commissions.js:328-341 | a valid status is accepted and written as given |
| AdminCommissions.UpdateStatus | netlify/functions/admin-commissions.js:328-388 | the update answers 400 exactly for a bad status; with a valid patch it answers 500 exactly on a database error, 404 exactly when no row matched and 200 exactly when a row was updated |
| AdminCommissions.CountStatus | netlify/functions/admin-commissions.js:140-143 | a status count never exceeds the number of rows |
| AdminCommissions.ComputeStats | netlify/functions/admin-commissions.js:138-147 | the total is the number of rows, the four status counts together never exceed it, and the amount sums only approved and paid rows |
| AdminCommissions.CountsBounded | netlify/functions/admin-commissions.js:139-143 | the four status counts together never exceed the number of rows |
| AdminCommissions.StatsAdditive | netlify/functions/admin-commissions.js:138-147 | the statistics of two pages together are the sums of each page's statistics |
| AdminCommissions.OnlyEarnedRowsCount | netlify/functions/admin-commissions.js:144-146 | pending, rejected and cancelled rows never add to the total amount |
| AdminCommissions.ListPagination | netlify/functions/admin-commissions.js:96-159 | limit 100 and offset 0 by default, and the total is the number of rows returned, agreeing with the statistics |

## Left out

- `utils/csrf-protection.js` is not part of this model. Its verdict on a request is a parameter of `TrackingLinks.AgencyCreateLink`.
- `utils/logger.js` is not part of this model. Logging has no effect on any answer.
- `utils/rate-limiter-redis.js` is left out, and so is the Upstash branch of `applyRateLimit`. Both are a network store; only the in-memory limiter is modelled.
- The `setInterval` sweep of the rate limiter is modelled as the operation `RateLimiter.Cleanup`, but not when it runs. The lemma `RateLimiter.CleanupInvisible` shows that its timing changes no decision.
- Network calls are left out. This covers the LINE profile and reply API, the forwards to the external webhook and to Render, and SendGrid e-mail. Their outcomes are parameters, and the forwards are reported as decisions.
- Cryptography is left out: HMAC-SHA256, base64, JWT signing and verification, and bcrypt. Each is a parameter. `validate-admin.js` and the admin password-hash script are left out with them.
- `Date.now`, `new Date()` and `Math.random` are inputs. ISO timestamps are whole numbers of milliseconds, and the matcher's ages are real minutes.
- Invoice and commission money is exact: integer yen, with rates as exact rationals and floor. IEEE-double rounding is left out, and so is `getBotStats`'s `botPercentage`.
- Supabase queries are left out. Filtering, ordering, ranges and joins become input sequences in the order the query would return them. `.single()` is modelled as "exactly one matching row" for the link, agency, profile and visit lookups; its error objects are not.
- Conversions.HasServiceConversion, Conversions.HasVisitConversion, Conversions.HasSessionConversion: the duplicate checks before a conversion insert (line-webhook-taskmate.js:326-332, line-webhook.js:586-591 and 665-669) use `.single()`, which finds nothing when two rows match, so the source would insert once more. The model treats them as "some matching row exists". The two agree whenever at most one row matches, and the KeepsKeysUnique lemmas show the inserts keep it that way for sequential requests.
- TrackRedirect.VisitRowFor: of the visit's `metadata` object only the tracking code is kept. Its copies of three UTM fields repeat what the link holds, and its timestamp needs a clock.
- Concurrency is left out. Each request runs alone, so the check-then-insert ledgers and read-then-write counters are claimed free of duplicates only for sequential requests.
- pdfkit rendering, fonts, `formatDate`, `formatNumber`, HTML e-mail bodies and the payment due date are left out. They depend on local time and locale formatting.
- URL percent-encoding and WHATWG URL parsing are left out. A parse is a parameter, and the redirect URL is its base plus its list of query parameters. The cookie's JSON and base64 encoding and the HTML error pages are left out too.
- Text is ASCII only. `toLowerCase` and `trim` act on ASCII letters and ASCII white space. `parseInt` is modelled as an optional parsed number, not as its character scanning.
- The dead message senders of `line-webhook.js` are left out, because they return immediately. Its legacy `tracking_visits` fallback is left out because it is unreachable, as explained under Findings.
- The unfollow, message and postback handlers are modelled only up to `LineWebhooks.Dispatch`. What they write is left out: a blocked flag, a last-activity time, or a keyword reply.
- `invoice-download.js`, `invoice-list.js`, `agency-stats.js` and `admin-services.js` are left out. They are authentication plus listing or PDF glue.
- The admin commission read and delete routes are modelled only as routes in `AdminCommissions.RouteFor`. Each is a single database call passed through.
- The database's own error messages are left out. Each read or write is an outcome flag. For the ones the handlers check, the model states which status code each failure gives. Three writes go unchecked in the source: linking the commissions to a new statement, the status update after issuing, and the email update after a resend. The model keeps those flags, and `Invoice.IssueAnswerIgnoresUncheckedWrites` and `Invoice.ResendAnswerIgnoresUpdate` show the answer does not depend on them.
- A request body that is not valid JSON is left out. `JSON.parse` throws into each handler's catch-all error answer, a 500 in the invoice and admin commission handlers. The model takes the parsed body fields as parameters.

## Findings

| source | as written | input that shows it | evidently intended | confidence | as-written member | corrected member |
|---|---|---|---|---|---|---|
| netlify/functions/line-webhook.js:391 | tier 2 of `linkUserToTracking` reads `event.headers`, but no `event` is bound there. The ReferenceError is caught at line 570, which returns null, so the main webhook never credits a visit by scoring. | a follow with no matching session and one visit from the last ten minutes that carries a session id | the request headers are passed in, as the two service webhooks do, so the visit is scored and credited | not executed | Attribution.MainTierTwoUnreachable | Attribution.MainLinkCorrected |
| netlify/functions/admin-commissions.js:42-48 | the last non-empty path segment is taken as the commission id. On the function's own path, `/.netlify/functions/admin-commissions`, that segment is the function name, so the listing branch is never reached. | `GET /.netlify/functions/admin-commissions` | a path ending in the function's name has no id and lists the commissions | not executed | AdminCommissions.ListingUnreachable | AdminCommissions.CorrectedRouteLists |
