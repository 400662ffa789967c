# sapps backend: entitlement reconciler and request-path rules in Dafny

This project models the core of the sapps Go backend and proves properties of the model.

The main part is the RevenueCat webhook reconciler. It keeps three PostgreSQL tables:

- `revenuecat_logs`: event id to log entry.
- `premium_data`: transaction id to plan type, creation date and optional expiry.
- `users`: firebase id to optional premium id.

Each webhook event changes these tables through a fixed sequence of SQL statements. Nothing wraps them in a transaction.

- `Entitlements` writes every statement as a map update. Each service function is the composition of its statements, in source order.
- `RevenueCatService.Store` is a class that holds the three tables as fields. Its methods run the same statements step by step, loops included. Each method is proved to leave the store exactly as the matching `Entitlements` function says.
- `EntitlementProperties` proves what the reconciler guarantees:
  - at most one user holds a transaction id;
  - replaying a purchase is idempotent;
  - the log insert is first-writer-wins;
  - expiry never decreases under PRODUCT_CHANGE;
  - the exact TRANSFER behaviour, including the partial effects it leaves on failure.

The smaller modules model the rest of the request path:

- `VerifyAuth`: the authentication middleware. It covers the premium-visibility join, clearing a past offer deadline, the weekly coin reset and the conditional column overwrites.
- `UsersAccount`: the paywall offerings returned by `GET account`.
- `ScanParsers`: the rating and TOML-like parsers of the face scan. The two fixed regular expressions are written out as leftmost-first scanners.
- `Detection`: the sentence splitter, the fallback analyses, the human/AI breakdown and the all-zero score branch. Probabilities are reals.
- `Translate`: the translation table, its merge from language files and the lookup with its fallbacks.
- `Notifications`: the special-offer push job. It groups tokens by language and sends them in batches of 500.
- `Firebase`: the bounded quadratic-backoff retry policy and the per-response error check.
- `GenerativeAICallback`: the status and result-URL decision of the image-generation callback.

Time is an integer number of milliseconds since the Unix epoch. "Now" is always a parameter, and PostgreSQL's `NOW()` and Go's `time.Now()` are taken to be the same instant within one request. The store is total: database errors are not modelled, except where the source reacts to a missing row.

Where the code departs from what a webhook handler is usually expected to do (an atomic transfer, a duplicate event id skipped, a NULL expiry kept as non-expiring), the model follows the code:

- TRANSFER is not atomic. A missing source account, or a last source with no premium id, ends the transfer with an error. The sources cleared before that stay cleared (`TransferUsesLastSource`, `FinishAllStopsAtMissing`).
- The moved transaction id is the last source's previous value, not the first non-empty one.
- A duplicate event id does not skip the dispatch. The log insert is `ON CONFLICT DO NOTHING`, and the event's effects are applied again (`DuplicateStillDispatches`). Replays are harmless only because the statements themselves are idempotent (`ReplayPurchaseIdempotent`).
- Every event without an id is logged under the one key `"tt"`, so only the first such event is ever recorded (`IdLessEventsShareLogKey`).
- PostgreSQL's `greatest` ignores NULL. A PRODUCT_CHANGE with a date therefore gives a non-expiring record (NULL `expire_date`) that date as its expiry (`ProductChangeEndsNonExpiring`).

## Model

| member | source | states |
|---|---|---|
| `Entitlements.PlanType` | services/go/pkg/sapps/service/revenuecat_service.go:245-248 | the plan type has no ':', is a prefix of the product id, and the cut is exactly at the first ':' |
| `EntitlementProperties.PlanTypeIdempotent` | services/go/pkg/sapps/service/revenuecat_service.go:207-210 | cutting twice is cutting once; a product id without ':' is kept whole |
| `EntitlementProperties.IdLessEventsShareLogKey` | services/go/pkg/sapps/service/revenuecat_service.go:52-59 | two events without a top-level or nested id both use the key "tt"; the second leaves the log as the first left it |
| `Entitlements.InsertIfAbsent` | services/go/pkg/sapps/service/revenuecat_service.go:251-255 | INSERT … ON CONFLICT DO NOTHING: the key is present afterwards, an existing value is kept and no other entry changes |
| `Entitlements.ClearHolders` | services/go/pkg/sapps/service/revenuecat_service.go:261-265 | afterwards no user holds the id; users that did not hold it keep their value; the user keys are unchanged |
| `Entitlements.SetPremiumId` | services/go/pkg/sapps/service/revenuecat_service.go:269-273 | UPDATE by firebase_id changes at most that one user and changes nothing if the user is absent |
| `Entitlements.RenameUser` | services/go/pkg/sapps/service/revenuecat_service.go:162-166 | re-keys the source account to the destination with its premium id; no account is created, every other account is kept |
| `Entitlements.Greatest` | services/go/pkg/sapps/service/revenuecat_service.go:212 | PostgreSQL GREATEST: NULL only when both are NULL, otherwise at least every non-NULL argument and equal to one of them |
| `Entitlements.PremiumIdOrEmpty` | services/go/pkg/sapps/service/revenuecat_service.go:280-283 | no row when the user is absent; otherwise the premium id, or "" for NULL |
| `Entitlements.ValidExpiry` | services/go/pkg/sapps/service/revenuecat_service.go:192-196 | no row when the user is absent; a value only when the user's own record expires after now |
| `Entitlements.ChangePremium` | services/go/pkg/sapps/service/revenuecat_service.go:211-213 | overwrites the plan type, merges the expiry by GREATEST, keeps the creation date, creates no record and touches no other record |
| `Entitlements.UpdatePremiumStatus` | services/go/pkg/sapps/service/revenuecat_service.go:237-276 | creates the record only if absent and never alters an existing one; the named user, if present, becomes the only holder; no other user's premium id changes except that other holders of the id are cleared |
| `EntitlementProperties.UpdatePremiumStatusIdempotent` | services/go/pkg/sapps/service/revenuecat_service.go:250-275 | applying updatePremiumStatus twice equals applying it once |
| `Entitlements.ProductChangeEndDate` | services/go/pkg/sapps/service/revenuecat_service.go:185-206 | no event date gives NULL; a date not yet past is used as is; a past date is replaced by the user's still-valid expiry, else by now + 24h |
| `Entitlements.ProductChange` | services/go/pkg/sapps/service/revenuecat_service.go:184-235 | never creates a record, always overwrites the plan type, never lowers a finite expiry, leaves it unchanged for a NULL event date, and ends with the app user as the sole holder |
| `EntitlementProperties.ProductChangesNeverLowerExpiry` | services/go/pkg/sapps/service/revenuecat_service.go:211-213 | along any sequence of PRODUCT_CHANGE webhooks, each delivered at its own time, a record's finite expiry never decreases |
| `EntitlementProperties.ProductChangeGracePeriod` | services/go/pkg/sapps/service/revenuecat_service.go:190-204 | a past event date with no other valid entitlement sets the expiry to exactly now + 24h and the new plan type |
| `EntitlementProperties.ProductChangeEndsNonExpiring` | services/go/pkg/sapps/service/revenuecat_service.go:212 | a non-expiring record receiving a PRODUCT_CHANGE with a future date gets that date as its expiry |
| `Entitlements.FinishPremium` | services/go/pkg/sapps/service/revenuecat_service.go:278-299 | returns the user's premium id (or "") and clears it; for a missing user it returns no rows and changes nothing |
| `Entitlements.FinishAll` | services/go/pkg/sapps/service/revenuecat_service.go:134-142 | the source loop succeeds exactly when every source exists, then clears all of them; the result is the last source's previous value; no non-source changes |
| `EntitlementProperties.FinishAllStopsAtMissing` | services/go/pkg/sapps/service/revenuecat_service.go:136-140 | at the first missing source the loop fails with the earlier sources already cleared |
| `EntitlementProperties.TransferUsesLastSource` | services/go/pkg/sapps/service/revenuecat_service.go:136-145 | moving [A holding T1, B holding nothing] fails with "no transaction ID found" after A has lost T1 |
| `EntitlementProperties.TransferWithoutSourcesFails` | services/go/pkg/sapps/service/revenuecat_service.go:134-145 | an empty transferred_from fails and only the log changes |
| `Entitlements.TransferStep` | services/go/pkg/sapps/service/revenuecat_service.go:148-177 | a destination with an account gets updatePremiumStatus; one without takes over transferred_from[0]'s account by renaming it, then holds the id |
| `Entitlements.TransferTo` | services/go/pkg/sapps/service/revenuecat_service.go:147-179 | the destination loop creates no account; only the last destination, if it exists by then, holds the id; existing records are unchanged |
| `EntitlementProperties.TransferOutcome` | services/go/pkg/sapps/service/revenuecat_service.go:132-182 | after a successful transfer, only the last destination holds the moved id, and every source that is not a destination holds nothing |
| `EntitlementProperties.ScenarioTransfer` | services/go/pkg/sapps/service/revenuecat_service.go:132-182 | TRANSFER from U1 (holding T1) to an existing U2 leaves U1 with nothing and U2 with T1 |
| `EntitlementProperties.ScenarioTransferNothingToMove` | services/go/pkg/sapps/service/revenuecat_service.go:143-145 | TRANSFER from a user with no premium id fails with no change to any value |
| `Entitlements.Dispatch` | services/go/pkg/sapps/service/revenuecat_service.go:120-129 | the dispatch never touches the log; an unrecognised type changes nothing and succeeds |
| `EntitlementProperties.LogFirstWriterWins` | services/go/pkg/sapps/service/revenuecat_service.go:74-94 | an already logged event id leaves the log untouched; a new one adds exactly its entry |
| `EntitlementProperties.DuplicateStillDispatches` | services/go/pkg/sapps/service/revenuecat_service.go:119-129 | with the id already logged, the webhook is exactly the dispatch |
| `EntitlementProperties.ReplayedIdStillApplies` | services/go/pkg/sapps/service/revenuecat_service.go:74-129 | the effect on premium_data, users and the outcome does not depend on what the log holds |
| `EntitlementProperties.UnrecognisedTypeOnlyLogs` | services/go/pkg/sapps/service/revenuecat_service.go:120-129 | an unrecognised event type only inserts its log entry and succeeds |
| `EntitlementProperties.ReplayPurchaseIdempotent` | services/go/pkg/sapps/service/revenuecat_service.go:121-122 | a purchase-type event succeeds, and delivering it again leaves every table as the first delivery did |
| `EntitlementProperties.WebhookKeepsExclusive` | services/go/pkg/sapps/service/revenuecat_service.go:50-130 | no webhook lets two users hold the same transaction id |
| `EntitlementProperties.WebhookKeepsUserCount` | services/go/pkg/sapps/service/revenuecat_service.go:159-171 | no webhook creates or deletes an account; new keys are TRANSFER destinations |
| `EntitlementProperties.ScenarioInitialPurchase` | services/go/pkg/sapps/service/revenuecat_service.go:121-122 | INITIAL_PURCHASE of "pro_1m" gives U1 the transaction T1 and a record with that plan and expiry |
| `RevenueCatService.Store.InsertLog` | services/go/pkg/sapps/service/revenuecat_service.go:74-94 | the log becomes the insert-if-absent of the entry; the other tables are unchanged |
| `RevenueCatService.Store.UpdatePremiumStatus` | services/go/pkg/sapps/service/revenuecat_service.go:237-276 | the store afterwards is `Entitlements.UpdatePremiumStatus` of the store before |
| `RevenueCatService.Store.HandleProductChange` | services/go/pkg/sapps/service/revenuecat_service.go:184-235 | the store afterwards is `Entitlements.ProductChange` of the store before |
| `RevenueCatService.Store.FinishPremium` | services/go/pkg/sapps/service/revenuecat_service.go:278-299 | the store and the returned id are those of `Entitlements.FinishPremium` |
| `RevenueCatService.Store.FinishSources` | services/go/pkg/sapps/service/revenuecat_service.go:134-142 | the source loop with its overwritten transaction id leaves the store and result of `Entitlements.FinishAll` |
| `RevenueCatService.Store.TransferDestinations` | services/go/pkg/sapps/service/revenuecat_service.go:147-179 | the destination loop leaves the store of `Entitlements.TransferTo` |
| `RevenueCatService.Store.HandleTransfer` | services/go/pkg/sapps/service/revenuecat_service.go:132-182 | the store and outcome are those of the transfer function, including the partial effects on failure |
| `RevenueCatService.Store.HandleWebhook` | services/go/pkg/sapps/service/revenuecat_service.go:50-130 | the event id fallback, the product id choice, the log insert and the dispatch leave the store and outcome of the webhook function |
| `VerifyAuth.VisiblePremium` | services/go/pkg/sapps/middleware/verify_auth.go:31 | the premium record is visible only if it is the user's own and has no expiry or one after now |
| `VerifyAuth.OverwriteIfGiven` | services/go/pkg/sapps/middleware/verify_auth.go:59 | a non-null incoming value replaces the column; a null one keeps it |
| `VerifyAuth.UpdatedRow` | services/go/pkg/sapps/middleware/verify_auth.go:49-64 | last_online is now; a due coin reset sets coin 2 and the reset date to now + 7 days, otherwise both are kept; language, build_number and store are overwritten only by non-null values, ip only by a non-empty one, country only by one that is not "", "XX" or "T1"; nothing else changes |
| `VerifyAuth.UpdatedRowIdempotent` | services/go/pkg/sapps/middleware/verify_auth.go:49-64 | the same request twice at the same instant updates the row once |
| `VerifyAuth.Handler` | services/go/pkg/sapps/middleware/verify_auth.go:18-82 | 401 exactly for an empty id or no row with that id and session, with no write; otherwise the row update, the visible premium type, an expiry in Unix seconds or 0, coin 2 when the reset is due, and a past offer deadline cleared |
| `UsersAccount.Variant` | services/go/pkg/sapps/route/users_account.go:29-34 | the variant is "b" exactly when an offer deadline is set, otherwise "a" |
| `UsersAccount.PremiumProducts` | services/go/pkg/sapps/route/users_account.go:35-43 | no plan, or one ending neither "_1w" nor "_1m", gives the week and month products; "_1w" gives only the month product; "_1m" gives none |
| `UsersAccount.OfferingsOnlyUpgrade` | services/go/pkg/sapps/route/users_account.go:35-43 | every offered product is of the running variant, and a subscriber is never offered a plan of the period they already have |
| `UsersAccount.WholeSeconds` | services/go/pkg/sapps/route/users_account.go:48 | whole seconds of a millisecond span, truncated toward zero |
| `UsersAccount.GetAccount` | services/go/pkg/sapps/route/users_account.go:18-67 | offerings from the plan and variant; special exactly when a deadline is set, with discount 87 and the whole seconds left; constant packages and discounts; coin, plan, expiry and debug copied; alternative_paywall false |
| `UsersAccount.CountdownNonNegative` | services/go/pkg/sapps/route/users_account.go:44-50 | for a deadline not yet past the countdown is never negative, and it is 0 in the last second |
| `ScanParsers.Atoi` | services/go/pkg/sapps/route/scan_post.go:67 | strconv.Atoi of a digit run is its value, clamped to the largest int on overflow, never negative |
| `ScanParsers.DecimalRoundTrip` | services/go/pkg/sapps/route/scan_post.go:67 | reading back a printed number gives the number |
| `ScanParsers.ParseRating` | services/go/pkg/sapps/route/scan_post.go:61-69 | 0 when the string has no digit; otherwise the value of the leftmost maximal digit run; never negative |
| `ScanParsers.ParseRatingOfNumber` | services/go/pkg/sapps/route/scan_post.go:61-69 | a number at the front of a text not continued by a digit is read back exactly |
| `ScanParsers.ParseRatingSevenOutOfTen` | services/go/pkg/sapps/route/scan_post.go:61-69 | "7/10" parses to 7 |
| `ScanParsers.MatchAt` | services/go/pkg/sapps/route/scan_post.go:73 | a match of the rating pattern at a position captures the maximal word there as its key and a non-empty digit run as its value |
| `ScanParsers.FindAll` | services/go/pkg/sapps/route/scan_post.go:74 | every match found has a non-empty all-digit value |
| `ScanParsers.NoOneNoMatch` | services/go/pkg/sapps/route/scan_post.go:73 | a text with no '1' has no match, because the '1' of `/?10?` is mandatory |
| `ScanParsers.SetRating` | services/go/pkg/sapps/route/scan_post.go:79-96 | a known key sets exactly its own field to the value; an unknown key changes nothing |
| `ScanParsers.RatingAfterMatches` | services/go/pkg/sapps/route/scan_post.go:75-97 | each field ends with its key's last matched value, or keeps its start value when the key never matched |
| `ScanParsers.ParseTOMLResponse` | services/go/pkg/sapps/route/scan_post.go:71-99 | starting from all zeros, each of the seven fields is the value of its key's last match, or 0 |
| `ScanParsers.RatingLineMatches` | services/go/pkg/sapps/route/scan_post.go:73-74 | a line `key = "N/10"` is exactly one match, with that key and the digits of N |
| `ScanParsers.RatingLineSetsField` | services/go/pkg/sapps/route/scan_post.go:71-99 | a response that is just the line `key = "N/10"` for a known key sets that field to N and leaves every other field 0 |
| `ScanParsers.RatingTextMatchAt` | services/go/pkg/sapps/route/scan_post.go:73 | a line `key = "D/10"` anywhere in a text is matched from its first to its last character, whatever text surrounds it |
| `ScanParsers.AnswerMatches` | services/go/pkg/sapps/route/scan_post.go:73-74 | an answer of newline-separated rating lines yields exactly one match per line, in order, with each line's key and the digits of its N |
| `ScanParsers.AnswerSetsFields` | services/go/pkg/sapps/route/scan_post.go:71-99 | on such an answer each field is the N of the last line with its key, or 0 when no line has its key |
| `ScanParsers.PromptAnswerReadsBack` | services/go/pkg/sapps/route/scan_post.go:48-59 | the seven-line answer scanSystemPrompt asks for reads back as exactly its seven ratings |
| `ScanParsers.LastLineWins` | services/go/pkg/sapps/route/scan_post.go:75-97 | when a key is repeated, the field takes the N of its last line |
| `ScanParsers.BareNumberIgnored` | services/go/pkg/sapps/route/scan_post.go:73 | `skin_rating = 7` without "/10" matches nothing and leaves every field 0 |
| `Detection.SeparatorAt` | services/go/pkg/sapps/service/detection_service.go:146 | a separator found is a run of '.', '!' or '?' followed by a run of white space |
| `Detection.SplitRejoins` | services/go/pkg/sapps/service/detection_service.go:146-147 | the pieces and the dropped separators, put back together, give the text |
| `Detection.TrimSpace` | services/go/pkg/sapps/service/detection_service.go:150 | the result has no leading or trailing white space and is empty exactly when the text is blank |
| `Detection.TrimSpaceIdempotent` | services/go/pkg/sapps/service/detection_service.go:150 | trimming twice is trimming once |
| `Detection.KeepNonBlankTrimmed` | services/go/pkg/sapps/service/detection_service.go:149-154 | every kept piece is trimmed and non-empty |
| `Detection.Sentences` | services/go/pkg/sapps/service/detection_service.go:144-162 | never empty; every sentence is trimmed; all sentences are non-empty unless the text is blank, and then the result is the one empty sentence |
| `Detection.BlankTextIsOneEmptySentence` | services/go/pkg/sapps/service/detection_service.go:157-159 | a blank text gives exactly one empty sentence |
| `Detection.SplitIntoSentences` | services/go/pkg/sapps/service/detection_service.go:144-162 | the loop over the split pieces returns the sentences of the text |
| `Detection.CompleteAnalyses` | services/go/pkg/sapps/service/detection_service.go:131-141 | the result is never empty; the model's analyses are kept when there are any, otherwise each sentence of the text gets probability 0.5 |
| `Detection.UncertainAnalyses` | services/go/pkg/sapps/service/detection_service.go:133-138 | one analysis per sentence, in order, each with probability 0.5 |
| `Detection.CalculateBreakdown` | services/go/pkg/sapps/service/detection_service.go:164-191 | human plus AI sentences equal the number of analyses; the human count counts probabilities below 0.5; the confidence is the average, or 0 for none; the analyses are returned unchanged |
| `Detection.HalfCountsAsAI` | services/go/pkg/sapps/service/detection_service.go:169-173 | a sentence of probability exactly 0.5 does not count as human |
| `Detection.AverageConfidenceBounds` | services/go/pkg/sapps/service/detection_service.go:176-186 | with probabilities in [0, 1], the average confidence lies in [0.5, 1] |
| `Detection.UncertainAnalysesCount` | services/go/pkg/sapps/service/detection_service.go:131-139 | fallback analyses are all AI, with total confidence 0.5 each |
| `Detection.BaseAIProbability` | services/go/pkg/sapps/service/detection_service.go:195-200 | the AI share lies in [0, 1], is 0 for no sentences, and otherwise times the total gives the AI count |
| `Detection.GenerateServiceResults` | services/go/pkg/sapps/service/detection_service.go:193-219 | all scores are zero exactly when the AI share is under 10%, in particular with no AI sentence; otherwise they vary around the share |
| `Detection.DetectAIContent` | services/go/pkg/sapps/service/detection_service.go:34-56 | fails exactly when the analysis fails; otherwise the divisor is at least 1, the probability is the AI share in [0, 1], and with no model analyses every fallback sentence counts as AI |
| `Translate.Merge` | services/go/lib/util/translate.go:36-41 | every key of the file is overwritten, other keys of the language are kept, other languages are untouched |
| `Translate.LoadLang` | services/go/lib/util/translate.go:22-42 | a malformed file, or a missing en/tr file, panics; a missing file of another language is skipped; every panic or skip leaves the table unchanged; a parsed file is merged |
| `Translate.LoadLangIdempotent` | services/go/lib/util/translate.go:22-42 | loading the same file twice is loading it once |
| `Translate.LoadAllKeepsLanguages` | services/go/lib/util/translate.go:44-49 | loading the folder never drops a language |
| `Translate.Translator.LoadLanguage` | services/go/lib/util/translate.go:22-42 | the key-by-key copy leaves the table and outcome of `Translate.LoadLang` |
| `Translate.Translator.LoadFolder` | services/go/lib/util/translate.go:44-49 | the languages in order, stopping at a panic |
| `Translate.ToLower` | services/go/lib/util/translate.go:52 | same length, letter by letter lower case, no upper-case ASCII letter left |
| `Translate.GetKeyValue` | services/go/lib/util/translate.go:51-66 | the lower-cased language's text (English for an unknown language), else English's text, else the key |
| `Translate.GetKeyValueFallbacks` | services/go/lib/util/translate.go:51-66 | the result is the language's, English's or the key; it is non-empty for a non-empty key; the language's case does not matter |
| `Translate.UnknownLanguageIsEnglish` | services/go/lib/util/translate.go:53-56 | a language missing from the table reads as English |
| `Translate.GetTranslation` | services/go/lib/util/translate.go:67-76 | with no values the lookup is returned unchanged; with values an empty lookup gives the key, otherwise the formatted text |
| `Notifications.GroupByLanguageIsTokensFor` | services/go/cmd/notifications/main.go:41-56 | a language is grouped exactly when a usable row has it, and its list is its rows' tokens in row order |
| `Notifications.TokensForHasToken` | services/go/cmd/notifications/main.go:48-51 | a token is in a language's list exactly when a row with both a token and that language carries it |
| `Notifications.GrantOffer` | services/go/cmd/notifications/main.go:52 | every user with the token gets an offer deadline a day ahead; every other user is unchanged |
| `Notifications.GrantAllEffect` | services/go/cmd/notifications/main.go:41-56 | after the row loop no user is added or removed; users whose token was updated have the deadline now + 1 day; all others are unchanged |
| `Notifications.GroupTokens` | services/go/cmd/notifications/main.go:40-56 | the row loop skips rows that failed to scan or have a NULL token or language, and builds the grouping and the updated users |
| `Notifications.BatchesShape` | services/go/cmd/notifications/main.go:65-66 | the batches concatenate back to the tokens; each holds 1 to 500, all but the last exactly 500; there are ceil(n/500) of them |
| `Notifications.BatchTokens` | services/go/cmd/notifications/main.go:65-66 | the `i += 500` loop yields exactly the batches |
| `Notifications.SentForMessages` | services/go/cmd/notifications/main.go:65-83 | one message per batch, in order, each carrying the fixed offer and that batch, paired with its send result |
| `Notifications.SentMessagesAreOffers` | services/go/cmd/notifications/main.go:63-84 | every multicast, whatever its language, has the fixed title, body and not_type=show_paywall, and 1 to 500 tokens |
| `Notifications.SendOffers` | services/go/cmd/notifications/main.go:63-84 | every language is sent exactly once, in some order, a failed send does not stop the rest, and every message sent is the offer |
| `Notifications.SendPushToNonPremiumUsers` | services/go/cmd/notifications/main.go:28-85 | a failed query sends and changes nothing; otherwise the users are updated by the row loop and the grouped languages are all sent |
| `Notifications.OffersReachExactlyTheUsableTokens` | services/go/cmd/notifications/main.go:41-84 | the job sends the offer to a token exactly when a usable row carries it, whatever the language order |
| `Firebase.BackoffBound` | services/go/lib/connection/firebase.go:18-20 | the backoff stays within a minute up to the 24th timeout and passes it from the 25th |
| `Firebase.RetryPolicy` | services/go/lib/connection/firebase.go:51-71 | at most min(attempts, 24)+1 calls; every call but the last timed out and was followed by a sleep of 100·k² ms; a first success or non-timeout error ends at once with no sleep |
| `Firebase.GiveUpOnlyAtBound` | services/go/lib/connection/firebase.go:63-67 | giving up on a timeout happens only when the attempt bound or the backoff bound is passed |
| `Firebase.RetryFromFacts` | services/go/lib/connection/firebase.go:51-71 | the result is that of the last call; all earlier calls timed out; the sleeps are the backoffs in order |
| `Firebase.RetryLoop` | services/go/lib/connection/firebase.go:51-71 | the loop's calls, result and ghost sleeps are those of the retry function |
| `Firebase.FirstError` | services/go/lib/connection/firebase.go:118-122 | no error exactly when every response succeeded; otherwise the first failing response's error |
| `Firebase.FirstResponseError` | services/go/lib/connection/firebase.go:140-144 | the loop over the responses returns the first error |
| `Firebase.SendEachWithRetry` | services/go/lib/connection/firebase.go:110-152 | the error is retry's result; on failure the response is nil; on success it is the last call's responses, all without error |
| `GenerativeAICallback.FirstResultUrl` | services/go/pkg/sapps/route/generative_ai_callback.go:115-119 | a URL is downloaded only for a non-empty, decodable resultJson with at least one URL, and it is the first one |
| `GenerativeAICallback.Decision` | services/go/pkg/sapps/route/generative_ai_callback.go:109-127 | "completed" exactly when code 200, state "success" and no failed download; the result URL is non-empty only from a successful download; a failed download forces "failed" |
| `GenerativeAICallback.UpdateTask` | services/go/pkg/sapps/route/generative_ai_callback.go:131-135 | every row of the task id gets the status, URL, completion time and raw resultJson; no other row changes |
| `GenerativeAICallback.UpdateTaskIdempotent` | services/go/pkg/sapps/route/generative_ai_callback.go:131-135 | a callback delivered twice leaves the table as one delivery does |
| `GenerativeAICallback.Handler` | services/go/pkg/sapps/route/generative_ai_callback.go:98-142 | an unparseable body or an empty task id gives 400 and no update; a failed update gives 500; otherwise the decided status and URL are stored for the task |

## Left out

- Database errors on any statement are not modelled; the store is total. The only read failure kept is "no rows", which the source handles. An error of the clearing UPDATE in updatePremiumStatus is only logged in the source, so nothing is lost.
- The JSON encoding of the event for the log (`json.Marshal`) cannot fail on this struct and is not modelled. Prices are not kept in the modelled log entry.
- The HTTP layer that turns a webhook error into a 500 is not part of this model.
- Concurrency: the middleware's background `go run(...)` update is modelled as happening within the request. Concurrent webhooks and their interleavings are not modelled.
- `VerifyAuth.Handler`: the goroutine's own context and the logging of its error are not modelled.
- Go's map iteration order in the notification job is modelled as a free choice of the next language.
- The notification job's SELECT is an input (the rows it returns). Its WHERE clause on premium_id, token and language is not related to the users table in the model.
- Firebase SDK calls, token verification and the Firebase app singleton are left out. What a send returns is an input to the model.
- `Firebase.RetryLoop`: time.Sleep is recorded in a ghost list of sleeps and does not pass time.
- The language-model calls, prompts and JSON decoding of their answers in the detection and scan services are inputs. Random score variation (`addVariation`) is left out.
- `Detection.GenerateServiceResults`: the non-zero branch records only the share the variations start from, because the scores there are random.
- Floating point is modelled as exact reals in the detection service.
- `Translate.GetTranslation`: formatting with values (fmt.Sprintf) is an input function. The Python-style variant is not part of this model.
- `Translate.ToLower`: only ASCII letters are lower-cased; Unicode case mapping is not modelled.
- The regular expressions are modelled for their fixed patterns over ASCII character classes. `strings.TrimSpace` uses the Unicode white space list.
- `UsersAccount.GetAccount`: JSON field omission (`omitempty`) is not modelled.
- Image download, re-encoding and file serving in the generative AI callback are left out. The download result is an input.
