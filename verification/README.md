# Subscription and usage metering core of jevi-chat

jevi-chat is a multi-tenant chatbot backend. An administrator creates
*projects*; each project is a subscription with a start and an expiry
date, a status (`active`, `suspended`, `expired`, `deleted`), a monthly
token quota and a running token counter. End-users chat with a project's
widget, and every chat request must pass the subscription checks before
the language model is called and its tokens are charged.

This Dafny project models the following parts of that core:

- the project record and its status predicates and in-place transitions (`ProjectModel`);
- the stored project documents, which may lack fields, and the `$set`, `$inc`, `UpdateOne` and `UpdateMany` semantics the core relies on (`Store`);
- the maintenance jobs and notification log of the database layer (`Config`);
- the subscription endpoints (`SubscriptionHandlers`);
- the chat path: the subscription evaluator, charging, threshold notifications, error replies and history (`Chat`);
- the middleware chain (`AuthMiddleware`, `SubscriptionMiddleware`);
- the admin and project endpoints (`Admin`, `ProjectHandlers`);
- the client, user and chat-user records (`ClientModel`, `UserModel`, `ChatUserModel`).

The modelling choices are:

- Instants are integers (seconds), and 0 is Go's zero time.
- A month is a fixed 30 days.
- Go's truncating division and `strconv.Atoi` are written out.
- Float percentages are compared exactly by cross-multiplication, including the IEEE results of a zero quota.
- Handlers take the database as a `Database` object holding the collections. The database-layer functions take a nullable `Database?`, because they report a nil handle as an error.

Four behaviours of the code at a boundary are worth stating, because
they are easy to misread:

- **Expiry instant.** The chat evaluator (handlers/chat.go:277) and the middleware (middleware/subscription.go:246) block only when `now > expiry`, so a project is still served at its expiry instant, although `IsProjectActive` (models/project.go:123) is already false there. `Chat.EvaluateChatDiffersFromIsProjectActive` shows this.
- **`IsExpired` at the expiry instant.** `IsExpired` (models/project.go:128) is false at the instant itself unless the stored status is "expired" (`ProjectModel.ExpiryInstantIsNeither`).
- **Reactivation.** The subscription handler (handlers/subscription.go:201-214) and the project handler (handlers/project.go:325-330) refuse reactivation only when `now > expiry`. The subscription handler also refuses a project that is already active.
- **Deleted records.** The expiry sweep's filter (config/database.go:580-583) does not exclude deleted records, so a deleted record with a past date is rewritten to "expired" (`Config.SweepChangesExactlyMatching`). `FixProjectLimits`, which every maintenance run calls after the sweep, can even make one active again (see Findings).

## Model

| member | source | states |
|---|---|---|
| Common.Atoi | handlers/admin.go:247-248 | `strconv.Atoi` succeeds exactly on an optional sign followed by at least one digit whose value lies in the 64-bit range, and then returns that value |
| Common.AtoiRefusesNonDigit | handlers/admin.go:247-248 | a character that is neither a digit nor a leading sign makes the text unparsable |
| Common.AtoiValue | handlers/admin.go:247-248 | the int `strconv.Atoi` returns beside its error: the value when it parses, the nearest 64-bit bound for an out-of-range numeral, 0 otherwise |
| Common.FormatInt | handlers/subscription.go:411-412 | `%d` writes a numeral whose value is the number |
| Common.AddMonths | models/project.go:171-180 | moving by at least one month lands strictly later, by none or fewer strictly not later |
| Common.AtoiDecimal | handlers/chat.go:147-150 | reading back the decimal text of any number up to MaxInt64 gives the number |
| Common.GoDiv | handlers/admin.go:336 | Go's division truncates; for non-negative operands, the quotient times the divisor is at most the dividend, and the remainder is below the divisor |
| Common.PercentAtLeastMonotone | handlers/chat.go:309-343 | a usage percentage at or above a higher threshold is also at or above a lower one |
| Common.Split | middleware/auth.go:384-393 | `strings.Split` on one character: the pieces hold no separator, and the first piece is the text before the first separator |
| Common.SplitJoin | config/database.go:98-112 | joining the split pieces again gives back the original text |
| Common.JoinSplit | config/database.go:98-112 | splitting the join of separator-free pieces gives back the pieces |
| Common.SplitFirstTwo | config/database.go:98-112 | the first piece of a split is the text before the first separator, the second the text between the first and second, and there are three or more pieces exactly when the separator occurs twice |
| Common.AnyContainsIff | middleware/subscription.go:349-381 | some fragment occurs in the text exactly when one of the listed fragments is contained in it |
| ProjectModel.IsValid | models/project.go:117-119 | definition: a name, a project id and a positive monthly quota are required |
| ProjectModel.IsExpired | models/project.go:127-129 | definition: strictly past the expiry instant, or stored as "expired"; `ExpiryInstantIsNeither` and `IsProjectActive` relate it to the active test |
| ProjectModel.IsProjectActive | models/project.go:122-124 | an active project has status "active" and `IsActive` set, and is never also expired |
| ProjectModel.ExpiryInstantIsNeither | models/project.go:122-129 | at the expiry instant a project is not active, and it is expired only when its stored status says so |
| ProjectModel.GetRemainingTokens | models/project.go:140-146 | never negative; it is limit minus used while used is at most the limit, and 0 once used reaches the limit |
| ProjectModel.CanUseTokens | models/project.go:154-156 | a request that fits implies an active project and a need no larger than the remaining quota |
| ProjectModel.GetAIModel | models/project.go:212-224 | never empty; "gemini-1.5-flash" for Gemini, the configured OpenAI model when set, otherwise "gpt-4o" |
| ProjectModel.ProcessedCount | models/project.go:247-255 | the number of processed files never exceeds the number of files |
| ProjectModel.ProcessedCountAppend | models/project.go:247-255 | the processed-file count of two lists is the sum of their counts |
| ProjectModel.NeedsReminderNotification | models/project.go:258-265 | false once a reminder was sent; otherwise true exactly within the three days before expiry |
| ProjectModel.ReminderOnlyBeforeExpiry | models/project.go:258-265 | a reminder is due only for a project that is not past expiry |
| ProjectModel.ProjectRef.AddTokenUsage | models/project.go:159-162 | usage grows by exactly the tokens given; only usage and the update time change |
| ProjectModel.ProjectRef.ResetTokenUsage | models/project.go:165-168 | usage back to 0, so the whole quota remains |
| ProjectModel.ProjectRef.ExtendSubscription | models/project.go:171-180 | counts from now when expired and from the old expiry otherwise; active, reminder cleared, and not expired afterwards |
| ProjectModel.ProjectRef.Suspend | models/project.go:183-186 | status "suspended"; not active at any time afterwards |
| ProjectModel.ProjectRef.Reactivate | models/project.go:189-196 | refused exactly when the project is expired, stored "expired" included; otherwise status "active" |
| ProjectModel.ProjectRef.MarkAsExpired | models/project.go:199-202 | status "expired"; expired at every instant afterwards |
| ProjectModel.ProjectRef.SoftDelete | models/project.go:205-209 | status "deleted" and `IsActive` false; never active afterwards |
| ProjectModel.ProjectRef.GetProcessedPDFCount | models/project.go:247-255 | the counting loop returns the number of files whose status is "processed" |
| Store.Apply | config/database.go:429-486 | a `$set` makes the fields it writes present and keeps absent fields at their zero values |
| Store.ApplyFields | config/database.go:570-599 | status, expiry, usage, quota and the active flag read back as written when the set writes them and as before otherwise; the two ids never change |
| Store.FindIndex | handlers/subscription.go:464-475 | the first document whose present `project_id` equals the id; none exactly when no document matches |
| Store.FindOne | handlers/subscription.go:464-475 | found exactly when some document carries the id, and the record found carries it |
| Store.UpdateOneIn | handlers/admin.go:411-465 | only the first matching document changes; ModifiedCount is positive exactly when the collection changed; a collection that decodes with zero values for missing fields keeps doing so |
| Store.UpdateOneInKeepsIndex | handlers/subscription.go:404-413 | after a matched update, reading the id back finds the same document, now carrying the update |
| Store.UpdateMany | config/database.go:570-599 | every matching document is updated, and every other one is left as it was; zero values for missing fields are kept |
| Store.UpdateManyNoMatch | config/database.go:570-599 | a filter that matches nothing leaves the collection as it was |
| Store.IncrementOneIn | handlers/chat.go:308-320 | only the first matching document gets the `$inc`; with no match nothing changes; zero values for missing fields are kept |
| Store.Database.UpdateOne | handlers/admin.go:411-465 | the collection becomes the `UpdateOne` result, and the reported modification is its count; the other collections are untouched; a collection that decodes with zero values stays so |
| Store.Database.IncrementUsage | handlers/chat.go:308-320 | the collection becomes the `$inc` result; the other collections are untouched; a collection that decodes with zero values stays so |
| Store.Increment | handlers/chat.go:312-317 | `$inc` adds exactly n to the counter, counting a missing counter from 0 |
| Config.HideSensitiveInfo | config/database.go:98-112 | a URI without "@" or without a password is returned unchanged; any change needs three colon-separated parts before "@" |
| Config.HideSensitiveInfoMasksPassword | config/database.go:98-112 | `scheme:user:password@host` becomes `scheme:user:***@host` |
| Config.HideSensitiveInfoRule | config/database.go:98-112 | with an "@" and two ":" before the first "@", the result is the text before the first ":", ":", the text up to the second ":", ":***@" and the text between the first and second "@"; any other string is returned unchanged |
| Config.Sweep | config/database.go:570-599 | definition: one `UpdateMany` writing "expired" and the update time on every record its filter matches; the four lemmas below state what it does |
| Config.SweepChangesExactlyMatching | config/database.go:570-599 | the expiry sweep changes exactly the records with a present past expiry that are not "expired", whatever their status, and writes "expired" on them |
| Config.SweepExpiresEveryPastRecord | config/database.go:570-599 | after the sweep every record with a present past expiry is stored as "expired" |
| Config.SweepLeavesNoMatch | config/database.go:570-599 | after the sweep no record matches its filter |
| Config.SweepIdempotent | config/database.go:570-599 | a second sweep at the same instant changes nothing |
| Config.UpdateExpiredProjects | config/database.go:570-599 | fails exactly on a nil handle; otherwise the collection is the sweep of the old one |
| Config.ExpiredIds | config/database.go:534-567 | never more ids than records; `ExpiredIdsExactly` states which |
| Config.ExpiredIdsExactly | config/database.go:534-567 | an id is listed exactly when some record with that id matches the expiry filter |
| Config.NoExpiredIdsAfterSweep | config/database.go:534-599 | after the sweep the expired-project query finds nothing |
| Config.GetExpiredProjects | config/database.go:534-567 | the cursor loop collects exactly the ids of the matching records |
| Config.FixAsWrittenKeepsMatching | config/database.go:429-486 | as written, a record without a usage counter still matches after the fix |
| Config.FixAsWrittenRevivesDeletedProject | config/database.go:440-472 | as written, a deleted record without a usage counter is made active again by every run |
| Config.FixProjectLimitsAsWritten | config/database.go:429-486 | definition: the repair as the code writes it, one `UpdateMany` whose `$setOnInsert` part is never applied; `FixAsWrittenRevivesDeletedProject` shows the consequence |
| Config.FixProjectLimitsAsWrittenIn | config/database.go:429-486 | fails exactly on a nil handle; otherwise it applies the repair as written and leaves the two logs alone |
| Config.FixProjectLimits | config/database.go:429-486 | definition: the corrected repair, which also writes the usage counter; the lemmas below state that it settles |
| Config.FixProjectLimitsSettles | config/database.go:429-486 | the corrected fix gives every record a usage counter and defaults the incomplete ones |
| Config.FixProjectLimitsIdempotent | config/database.go:429-486 | the corrected fix applied twice equals one application |
| Config.FixProjectLimitsIn | config/database.go:429-486 | fails exactly on a nil handle; otherwise it applies the corrected fix |
| Config.InitializeSubscriptionDefaults | config/database.go:489-531 | definition: one `UpdateMany` writing the subscription defaults on every record that lacks a subscription field |
| Config.InitializeSubscriptionDefaultsResets | config/database.go:489-531 | records missing a subscription field get the defaults, the others are untouched, and none matches afterwards |
| Config.InitializeSubscriptionDefaultsIn | config/database.go:489-531 | fails exactly on a nil handle; otherwise it applies the defaults |
| Config.RunSubscriptionMaintenance | config/database.go:602-619 | the expiry sweep, then the limit repair as written (the call at line 612); a nil handle is an error; the logs are untouched |
| Config.MaintenanceAsWritten | config/database.go:602-619 | definition: the projects after one maintenance run, the sweep followed by the repair as written |
| Config.MaintenanceRevivesDeletedProject | config/database.go:429-619 | a record without a usage counter that an admin deletes after one run is "active" again, with a fresh month and the default quota, after the next run |
| Config.LogNotification | config/database.go:622-648 | appends exactly one "sent" entry, or fails on a nil handle |
| Config.CountRecentPositive | config/database.go:651-675 | the count is positive exactly when some entry for that project and type is at or after the cutoff |
| Config.RecentlySentIff | config/database.go:651-675 | recently sent exactly when an entry of that project and type lies within the last `hours` hours |
| Config.LoggedIsRecent | config/database.go:622-675 | an entry just logged counts as recently sent |
| Config.WasNotificationRecentlySent | config/database.go:651-675 | the answer is `RecentlySent` of the log; a nil handle is an error |
| SubscriptionHandlers.GetProjectByID | handlers/subscription.go:464-474 | definition: the first record with that id, or none |
| SubscriptionHandlers.ReportStatus | handlers/subscription.go:19-61 | the reported status is "expired" once past expiry; remaining tokens never negative; active only while "active" and before expiry; renewal due within 3 days |
| SubscriptionHandlers.ReportedActiveIsProjectActive | handlers/subscription.go:28-40 | for a record with `IsActive` set, the reported flag equals `IsProjectActive` |
| SubscriptionHandlers.GetSubscriptionStatus | handlers/subscription.go:19-61 | not found exactly when no record has the id; a stale active record past expiry is written back as "expired" |
| SubscriptionHandlers.EffectiveRenewRequest | handlers/subscription.go:64-80 | an unreadable body means one month with a usage reset |
| SubscriptionHandlers.RenewedExpiry | handlers/subscription.go:99-111 | from now when expired or asked to, else from the old expiry; always later than now, and later than the old expiry when extending it |
| SubscriptionHandlers.RenewalEffect | handlers/subscription.go:99-125 | renewal leaves the record active with the reminder cleared; usage is reset and the limit changed only on request |
| SubscriptionHandlers.RenewalDiffersFromExtend | handlers/subscription.go:99-111 | for a record stored "expired" with a future date, renewal extends from the old expiry, unlike `ExtendSubscription` |
| SubscriptionHandlers.RenewSubscription | handlers/subscription.go:64-149 | succeeds exactly when the months are in 1..12, the project exists and the write modified it; it writes only with valid months and a found project; on success exactly one "renewal" entry naming the months and the project is appended to the log, on failure the log is unchanged; chat messages are untouched |
| SubscriptionHandlers.SuspensionMessage | handlers/subscription.go:168-172 | the logged message names the project, and the reason is appended when given |
| SubscriptionHandlers.SuspendSubscription | handlers/subscription.go:152-188 | a found record becomes "suspended" and one "suspension" entry is logged |
| SubscriptionHandlers.ReactivateCheck | handlers/subscription.go:204-216 | allowed exactly when not past expiry and not already active |
| SubscriptionHandlers.ReactivationRulesDiffer | handlers/subscription.go:204-216 | a record stored "expired" with a future date is reactivated here, although the record's own `Reactivate` refuses it |
| SubscriptionHandlers.ReactivateSubscription | handlers/subscription.go:191-233 | on the check passing the record becomes "active" and exactly one "reactivation" entry naming the project is appended; otherwise nothing changes; chat messages are untouched |
| SubscriptionHandlers.CheckNewLimit | handlers/subscription.go:370-390 | a limit is accepted exactly when the body binds and it is positive |
| SubscriptionHandlers.UpdateTokenLimit | handlers/subscription.go:370-419 | succeeds exactly when the limit is accepted and the write modified the record; a refused limit writes nothing; on success exactly one "limit_update" entry naming the new limit and the project is appended, on failure the log is unchanged |
| SubscriptionHandlers.ResetChangesOnlyUsage | handlers/subscription.go:422-459 | the reset zeroes usage and the update time only, so the whole quota remains |
| SubscriptionHandlers.ResetTokenUsage | handlers/subscription.go:422-459 | success exactly when the store reports a modification; then exactly one "usage_reset" entry naming the project is appended, otherwise the log is unchanged |
| SubscriptionHandlers.GetUsageWarnings | handlers/subscription.go:501-521 | each warning appears exactly in its band of usage (100, 90, 80 percent) or of days to expiry (0, 3, 7) |
| SubscriptionHandlers.AtMostOneUsageWarning | handlers/subscription.go:501-521 | at most one usage warning and at most one expiry warning |
| Chat.StatusBlockMessage | handlers/chat.go:264-273 | each non-active status maps to its message, and any other status to "inactive" |
| Chat.EvaluateChat | handlers/chat.go:250-289 | allowed exactly when "active", not past expiry and usage below the quota; otherwise blocked with the status message, then the expiry message, then the quota message, in that order |
| Chat.EvaluateChatIsCanUseTokens | handlers/chat.go:250-289 | away from the expiry instant, and for a record with `IsActive` set, allowed equals `CanUseTokens(1)` |
| Chat.EvaluateChatDiffersFromIsProjectActive | handlers/chat.go:276-282 | the evaluator serves a project at its expiry instant, and one whose `IsActive` flag is off |
| Chat.EvaluateChatNeverAllowsExpired | handlers/chat.go:250-289 | an allowed project is not expired and has tokens left |
| Chat.GetProjectWithValidation | handlers/chat.go:250-289 | not found is an error; a stale active record past expiry is written back as "expired" |
| Chat.ThresholdAlert | handlers/chat.go:308-343 | the 24-hour limit alert is due exactly at 100 percent of the quota, and the 12-hour warning otherwise at 80 percent |
| Chat.ThresholdAlertPositiveLimit | handlers/chat.go:308-343 | with a positive quota, the alerts fall exactly in the bands used >= limit and 4/5 limit <= used < limit |
| Chat.ThresholdAlertZeroLimit | handlers/chat.go:309 | with a zero quota, any positive usage is over the limit, and zero usage alerts nothing |
| Chat.ChargeNotification | handlers/chat.go:323-344 | an alert is logged only when due and not already logged within its window |
| Chat.NoRepeatedNotification | handlers/chat.go:323-344 | once an alert is logged for a project, no charge within that alert's window logs the same alert type again, whatever the new total, the current quota or the entries logged in between |
| Chat.UpdateProjectTokenUsage | handlers/chat.go:294-347 | fails exactly when the record is missing; otherwise usage grows by the tokens and at most one due alert is logged |
| Chat.ChargeAddsExactly | handlers/chat.go:308-317 | after the charge the stored usage is the old usage plus the tokens |
| Chat.ProjectChatMessage | handlers/chat.go:25-88 | an empty message, a missing project or a failed model call is an error and writes nothing; a reply is saved and charged |
| Chat.GetErrorResponse | handlers/chat.go:486-503 | the reply is always one of the five fixed texts, never the raw error; each is chosen exactly when its keywords occur and no earlier class's keywords do |
| Chat.ErrorResponseOrder | handlers/chat.go:489-496 | a quota error that also mentions a timeout is reported as high demand |
| Chat.HistoryLimit | handlers/chat.go:145-151 | the limit is always in 1..100: the parsed value when it lies there, otherwise 50 |
| Chat.HistoryLimitAcceptsRange | handlers/chat.go:147-150 | every value in 1..100 written in decimal is accepted as it is |
| Chat.Reversed | handlers/chat.go:177-180 | entry k of the result is entry n-1-k of the input |
| Chat.ReversedTwice | handlers/chat.go:177-180 | reversing twice gives back the messages |
| Chat.ReverseMessages | handlers/chat.go:178-180 | the in-place two-index swap loop leaves the array reversed |
| Chat.IsObjectIDHex | handlers/chat.go:215 | definition: exactly 24 hexadecimal digits, either case |
| Chat.ValidateRating | handlers/chat.go:200-219 | accepted exactly for "positive" or "negative" with a 24-digit hex message id |
| AuthMiddleware.ExtractTokenFromHeader | middleware/auth.go:283-295 | "" for an empty header; one leading "Bearer " stripped; any other header returned unchanged |
| AuthMiddleware.ExtractBearerToken | middleware/auth.go:283-295 | `Bearer <t>` yields exactly t |
| AuthMiddleware.IsPublicRoute | middleware/auth.go:351-374 | definition: the path starts with one of the listed public prefixes |
| AuthMiddleware.IsPublicRouteIff | middleware/auth.go:351-374 | public exactly when the path starts with one of the listed prefixes |
| AuthMiddleware.EveryProjectPathIsPublic | middleware/auth.go:351-374 | every path under "/api/projects/" is public |
| AuthMiddleware.GetClientIP | middleware/auth.go:384-393 | the text before the first comma of X-Forwarded-For, else X-Real-IP, else the peer address |
| AuthMiddleware.ClientIPIsFirstHop | middleware/auth.go:384-393 | the client address before the proxy list is the one returned |
| AuthMiddleware.Cors | middleware/auth.go:181-222 | the origin is reflected exactly on an exact allow-list match or in development; OPTIONS ends the request |
| AuthMiddleware.CorsAsWrittenRefusesDashboard | middleware/auth.go:186-195 | `CORSMiddleware` on its own refuses the admin dashboard's origin outside development, and two of its entries can never equal an Origin header |
| AuthMiddleware.CorsAcceptsDashboard | middleware/auth.go:186-195 | the corrected list of `CORSMiddleware` accepts the dashboard and every origin the written list accepts |
| AuthMiddleware.ServedCors | main.go:71-128 | the inline handler runs first: OPTIONS ends the request, with the origin reflected exactly when it is on the server list or in development; otherwise the origin is reflected when either list or development allows it, and always as the origin itself |
| AuthMiddleware.ServedCorsAcceptsDashboard | main.go:71-128 | the program as served reflects the dashboard's origin outside development, for every method, with the allow list as written |
| AuthMiddleware.ServedCorsSameForEitherList | main.go:71-128 | for any origin, the served decision is the same with the written or the corrected `CORSMiddleware` list, so the defect is latent |
| AuthMiddleware.AdminMiddleware | middleware/auth.go:117-145 | passes exactly when the role is present and equals "admin" |
| AuthMiddleware.RateLimitKeyFor | middleware/auth.go:225-245 | "user:<id>" with 1000 per hour when authenticated, else "ip:<ip>" with 100 per hour |
| AuthMiddleware.RateLimitKeysDisjoint | middleware/auth.go:225-245 | a user key never equals an address key |
| AuthMiddleware.CheckRateLimit | middleware/auth.go:377-381 | the stub always allows |
| AuthMiddleware.RateLimitMiddleware | middleware/auth.go:225-260 | hence the middleware never refuses |
| SubscriptionMiddleware.IsAdminRoute | middleware/subscription.go:349-363 | definition: the path starts with "/api/admin", "/admin" or "/dashboard" |
| SubscriptionMiddleware.IsAdminRouteIff | middleware/subscription.go:349-363 | admin route exactly when the path starts with an admin prefix |
| SubscriptionMiddleware.ProjectChatRouteIsChatEndpoint | middleware/subscription.go:349-381 | the project chat route is a chat endpoint and not an admin route |
| SubscriptionMiddleware.IsChatEndpoint | middleware/subscription.go:366-381 | definition: the path contains "/api/chat", "/api/projects/", "/chat" or "/message" |
| SubscriptionMiddleware.IsChatEndpointIff | middleware/subscription.go:349-381 | a path is a chat endpoint exactly when it contains one of the chat fragments |
| SubscriptionMiddleware.StatusBlockMessage | middleware/subscription.go:229-244 | each non-active status maps to its message |
| SubscriptionMiddleware.ValidateProjectSubscription | middleware/subscription.go:219-258 | allowed exactly when "active", `IsActive` set and not past expiry; otherwise blocked with the status message, then the expiry message, then the unavailable message |
| SubscriptionMiddleware.ValidatorIsProjectActive | middleware/subscription.go:219-258 | away from the expiry instant the validator agrees with `IsProjectActive` |
| SubscriptionMiddleware.ValidatorIgnoresQuota | middleware/subscription.go:219-258 | the validator's decision does not depend on usage |
| SubscriptionMiddleware.ValidateProjectSubscriptionIn | middleware/subscription.go:219-296 | a missing record is an error; a stale active record past expiry is written back as "expired" |
| SubscriptionMiddleware.SubscriptionValidator | middleware/subscription.go:19-64 | requests without a project id and admin routes pass; a validated project is active, flagged and not past expiry |
| SubscriptionMiddleware.TokenLimitValidator | middleware/subscription.go:67-120 | only chat endpoints are gated; a missing project is refused, and so is one at or over its quota; the warning header goes only with a project under quota |
| SubscriptionMiddleware.TokenWarningBand | middleware/subscription.go:90-115 | with a positive quota the warning header is set exactly for 9/10 limit <= used < limit |
| SubscriptionMiddleware.CheckProjectRateLimitAsWritten | middleware/subscription.go:300-313 | definition: false for a suspended project, otherwise the negation of the rate-limit stub at 60 or 30 requests a minute |
| SubscriptionMiddleware.CheckProjectRateLimitAsWrittenRefusesAll | middleware/subscription.go:300-313 | as written, the check is false for every project |
| SubscriptionMiddleware.CheckProjectRateLimit | middleware/subscription.go:300-313 | corrected: refused exactly for a suspended project |
| SubscriptionMiddleware.RateLimitValidatorAsWritten | middleware/subscription.go:123-158 | definition: a chat request with a project is refused whenever the written check is false; `ChatRouteRateLimited` shows that is always |
| SubscriptionMiddleware.RateLimitValidator | middleware/subscription.go:123-158 | corrected: blocks a chat request exactly when its project is suspended |
| SubscriptionMiddleware.ChatRouteRateLimited | main.go:168-171 | a valid project under quota passes the first two validators; the written rate validator then refuses it, and the corrected one lets it through |
| SubscriptionMiddleware.PerformSubscriptionMaintenance | middleware/subscription.go:317-346 | the collection becomes the sweep of the old one |
| Admin.ValidStatus | handlers/admin.go:888-896 | definition: one of the four statuses the system writes |
| Admin.IsValidStatus | handlers/admin.go:888-896 | the search succeeds exactly for "active", "suspended", "expired" and "deleted" |
| Admin.EffectiveAdminRenewRequest | handlers/admin.go:414-420 | an unreadable body means one month with a usage reset |
| Admin.AdminRenewalEffect | handlers/admin.go:427-440 | the admin renewal sets the expiry to `months` after now whatever it was; active, reminder cleared, usage zeroed only on request |
| Admin.AdminRenewalCanShorten | handlers/admin.go:427-440 | for a record with more time left than `months`, the admin renewal moves the expiry earlier |
| Admin.RenewProject | handlers/admin.go:411-465 | months outside 1..12 are refused before any write; not found when nothing was modified; on success exactly one "renewal" entry under the nil id naming the project and the months is appended, on failure the log is unchanged |
| Admin.UpdateProjectStatus | handlers/admin.go:468-521 | a missing or invalid status is refused before any write; otherwise the status is set; on success exactly one "status_change" entry under the nil id with the status and any reason is appended, on failure the log is unchanged |
| Admin.CountDisjointWithin | handlers/admin.go:81-125 | two disjoint filters that imply a third count no more than it |
| Admin.CountWhere | handlers/admin.go:86-117 | the count of matching records never exceeds the number of records |
| Admin.GetProjectStatistics | handlers/admin.go:81-125 | each figure is the count of the records its filter matches; active plus suspended is at most the non-deleted total, and so is the count of past-date records |
| Admin.StatisticsOfOneMore | handlers/admin.go:86-117 | adding a stored "deleted" record changes no figure; a record without a status counts in the total only; an inactive "active" record does not count as active; a present past date that is not stored "deleted" adds one to the expired figure |
| Admin.QueryInt | handlers/admin.go:247-248 | the parsed value; 0 for text that is not a numeral; the nearest 64-bit bound for a numeral out of range; the default text when absent |
| Admin.QueryIntClampsHuge | handlers/admin.go:247-248 | a page number beyond the 64-bit range reads as the largest 64-bit integer |
| Admin.QueryIntDefaults | handlers/admin.go:247-248 | absent parameters read as page 1 and limit 20 |
| Admin.Paginate | handlers/admin.go:275-346 | fails exactly for a non-positive limit or page; skip is (page-1)*limit; the page count is the ceiling of total/limit |
| Admin.PaginateHasNextIffMore | handlers/admin.go:336-345 | a next page is reported exactly when records remain beyond this page |
| Admin.AdminRemainingTokens | handlers/admin.go:546 | unclamped; negative once usage passes the quota, and its clamp at 0 is `GetRemainingTokens` |
| ProjectHandlers.GetStringOrDefault | handlers/project.go:474-479 | the value unless it is empty, then the default |
| ProjectHandlers.ParseTokenLimit | handlers/project.go:58-63 | the default 100000 when empty or unparsable, otherwise the parsed integer as it is, zero and negatives included |
| ProjectHandlers.ParseTokenLimitAcceptsZero | handlers/project.go:58-63 | a limit of "0" is taken, so the project has no quota |
| ProjectHandlers.ProcessUploads | handlers/project.go:92-160 | succeeds exactly when every file is a PDF of at most 10 MB, otherwise it reports the first bad file; the records and the combined text follow the uploads in order |
| ProjectHandlers.PdfRecord | handlers/project.go:143-154 | each stored file record is marked processed and keeps the generated id and the uploaded name |
| ProjectHandlers.AllProcessed | handlers/project.go:143-157 | when every record is processed, the processed count is the number of files |
| ProjectHandlers.NewProjectState | handlers/project.go:74-83 | a new project is active for a year with its whole quota unused; widget texts are never empty; file upload is enabled exactly when a file came; every file counts as processed |
| ProjectHandlers.CreateProject | handlers/project.go:27-228 | succeeds exactly for an authenticated admin with a parsed form, a name and only good files, and then inserts exactly the new record; otherwise nothing is stored |
| ProjectHandlers.UpdateProjectEffect | handlers/project.go:252-279 | empty texts and non-positive limits keep the stored value, an invalid status is dropped silently, and usage and dates are untouched |
| ProjectHandlers.UpdateProject | handlers/project.go:232-296 | an unreadable body writes nothing; otherwise the update set is applied, and success means something was modified |
| ProjectHandlers.SuspendProject | handlers/project.go:299-312 | writes "suspended" and reports success whether or not a record matched |
| ProjectHandlers.ReactivateProjectCheck | handlers/project.go:325-330 | refused exactly when now is after the expiry, whatever the status |
| ProjectHandlers.ReactivateProjectAllowsStoredExpired | handlers/project.go:315-342 | a record stored "expired" with a future date is reactivated, although it counts as expired |
| ProjectHandlers.ReactivateProject | handlers/project.go:315-342 | not found, or the check's refusal, writes nothing; otherwise the status becomes "active" |
| ProjectHandlers.DeleteDeactivates | handlers/project.go:485-499 | a deleted record is never active again and drops out of the dashboard counts |
| ProjectHandlers.DeleteProject | handlers/project.go:482-524 | an empty id is refused; otherwise the soft delete is applied, and a deletion is logged when something was modified |
| ClientModel.WithoutFirstMultiset | models/client.go:158-164 | removal takes away exactly one occurrence of the id when there is one, and nothing else |
| ClientModel.WithoutFirstNoDuplicates | models/client.go:144-168 | on a list without duplicates, removal removes the id entirely and keeps the list free of duplicates |
| ClientModel.AddThenRemove | models/client.go:144-168 | adding a new id and removing it again restores the list |
| ClientModel.Client.IsValid | models/client.go:126-128 | definition: a name, an email and a client id are required |
| ClientModel.Client.IsActiveStatus | models/client.go:139-141 | definition: status "active" and `IsActive` set |
| ClientModel.Client.GetDisplayName | models/client.go:131-136 | the name when non-empty, else the email |
| ClientModel.Client.AddProject | models/client.go:144-154 | a present id changes nothing, not even the count; a new id is appended and the count refreshed; the list stays duplicate-free |
| ClientModel.Client.RemoveProject | models/client.go:158-168 | the first occurrence goes, the order is kept, and the count always equals the length |
| ClientModel.Client.UpdateTokenUsage | models/client.go:171-175 | usage grows by exactly the amount given |
| UserModel.IsValid | models/models.go:137-140 | definition: a name, an email and a password are required |
| UserModel.IsAdmin | models/models.go:142-145 | definition: the role is "admin" |
| UserModel.IsLocked | models/models.go:147-150 | definition: a lock time is set and not yet reached |
| UserModel.IsPasswordResetTokenValid | models/models.go:191-196 | definition: the token matches, an expiry is set and not yet reached |
| UserModel.CanLogin | models/models.go:152-154 | a user who can log in is not locked |
| UserModel.FailedLogin | models/models.go:157-163 | one more attempt; the lock is set to now+30 minutes exactly when the count reaches 5 |
| UserModel.FailedLoginLocks | models/models.go:147-163 | the fifth failure locks the account until 30 minutes later, and it cannot log in meanwhile |
| UserModel.FailuresUntilLock | models/models.go:119-163 | n failures from a clean record count n, and lock exactly from the fifth on |
| UserModel.UserRef.IncrementLoginAttempts | models/models.go:157-163 | the record becomes `FailedLogin` of the old one |
| UserModel.UserRef.ResetLoginAttempts | models/models.go:166-171 | attempts 0 and the lock cleared, so the user is not locked at any time |
| UserModel.UserRef.SetLastLogin | models/models.go:174-178 | records the login time and address; every other field stays |
| UserModel.UserRef.GeneratePasswordResetToken | models/models.go:181-188 | the given token is valid for one hour, and no other text is |
| UserModel.UserRef.ClearPasswordResetToken | models/models.go:198-202 | no token is valid afterwards |
| UserModel.ToSafeUser | models/models.go:205-211 | the password and both tokens are blanked, and every other field is copied |
| UserModel.ToSafeUserKeepsStatus | models/models.go:142-211 | the safe copy keeps the admin, lock and login decisions, is not a valid user, is its own safe copy, and no non-empty reset token works on it |
| ChatUserModel.ChatUser.IsValidUser | models/chat_user.go:37-40 | definition: a project id and an email are required |
| ChatUserModel.ChatUser.CanChat | models/chat_user.go:42-45 | definition: active and not blocked |
| ChatUserModel.ChatUser.IncrementSession | models/chat_user.go:47-51 | sessions grow by 1; the message and token counters stay |
| ChatUserModel.ChatUser.IncrementMessage | models/chat_user.go:54-59 | messages grow by 1 and tokens by the amount; sessions stay |
| ChatUserModel.ChatUser.Block | models/chat_user.go:62-65 | blocked, so the user cannot chat; `IsActive` untouched |
| ChatUserModel.ChatUser.Unblock | models/chat_user.go:68-71 | not blocked; the user can chat exactly when active |
| ChatUserModel.ChatUser.Deactivate | models/chat_user.go:74-77 | not active, so the user cannot chat |
| ChatUserModel.ChatUser.Activate | models/chat_user.go:80-82 | active; the user can chat exactly when not blocked |
| ChatUserModel.BlockThenUnblock | models/chat_user.go:62-71 | block then unblock leaves the user unblocked with `IsActive` as before |

## Left out

- **MongoDB I/O** is modelled as in-memory sequences. The following are not modelled: connection setup, index creation, health checks, timeouts, driver errors (each write is taken to succeed), and the fields the model does not track.
- **Model call.** The language-model call and PDF text extraction are parameters: a reply or a failure, and the extracted text or none. JWT, bcrypt, and the generation of random ids and tokens are left out; generated values are parameters.
- **Asynchronous writes** are modelled sequentially:
  - the notification goroutine of `updateProjectTokenUsage`;
  - the async status write of the subscription validator;
  - the maintenance validator and the daily ticker.

  The race between the evaluator's check and the `$inc` charge is not modelled.
- **Float-valued report fields** are left out: costs, days until expiry and usage percentages. Only the threshold comparisons are kept, as exact cross-multiplication.
- **Calendar arithmetic** of `AddDate`: a month is 30 days, and month-end normalisation is not modelled.
- **Float values in log texts** are omitted: the usage warning keeps its fixed words and the project name but not the `%.1f` percentage. Integers formatted with `%d` (months, token limits) are written out.
- **Response shapes** are reduced to the decision and the record changes: JSON bodies, headers and status codes. The chat history query and its sort, and the rating write, are left out; only the rating validation and the in-place reversal are modelled.
- **Other handlers** are left out: the remaining read-only listing handlers of handlers/admin.go, `GetProjects`, the embed-code handlers, and the admin dashboard aggregates other than `getProjectStatistics`.
- **File storage in CreateProject.** Creating the upload directory and saving each file are left out, including their errors. The embed snippet is a parameter. The client record is not created.
- **64-bit overflow** of the token counters and of `(page-1)*limit` is not modelled. Integers are unbounded.
- Config.FixProjectLimits: the corrected fix still rewrites, on every run, a record that lacks `project_id`. Only the usage-counter half of the defect is corrected.
- ClientModel.Client.UpdateTokenUsage: the cost argument is a float and is not modelled.

## Findings

| source | as written | input that shows it | evidently intended | confidence | as-written member | corrected member |
|---|---|---|---|---|---|---|
| config/database.go:440-472 | `total_tokens_used: 0` sits under `$setOnInsert` of a non-upsert `UpdateMany`, so it is never written. A record without the counter keeps matching the filter, and every run resets its status to "active" and its dates and limit. `RunSubscriptionMaintenance` calls it after each sweep (config/database.go:612), so a record an admin deletes is active again after the next run (`Config.MaintenanceRevivesDeletedProject`). | a record stored "deleted" without `total_tokens_used`: after the first run it is "active" | write the counter with `$set` so that the fix settles after one run | high (not executed) | Config.FixAsWrittenRevivesDeletedProject | Config.FixProjectLimitsIdempotent |
| middleware/subscription.go:300-313 | `checkProjectRateLimit` returns `!checkRateLimit(...)`, and the `checkRateLimit` stub is always true. So it is false for every project, and `RateLimitValidator` refuses every chat request on the route that main.go:168-171 wires. | any active project under quota, chat request at "/api/projects/p/chat" | refuse only suspended projects (the stub enforces no quota) | high (not executed) | SubscriptionMiddleware.ChatRouteRateLimited | SubscriptionMiddleware.RateLimitValidator |
| middleware/auth.go:186-195 | The allow list of `CORSMiddleware` holds "https://troika-admin-dashborad.onrender.com/" and ".../api". A browser's Origin header never ends in a slash or carries a path, so this middleware on its own never accepts the dashboard outside development. The program as served is not affected: the inline handler of main.go:71-118 runs first, lists the bare origin and sets the header, and `CORSMiddleware` is only a backup (main.go:125). | Origin "https://troika-admin-dashborad.onrender.com", development off, given to `CORSMiddleware` alone | list the bare origin "https://troika-admin-dashborad.onrender.com" | low: latent while the inline handler stays in place (not executed) | AuthMiddleware.CorsAsWrittenRefusesDashboard | AuthMiddleware.CorsAcceptsDashboard |
