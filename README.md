# PingLater webhooks and API tokens in Dafny

PingLater is a Go service that forwards WhatsApp events to user-configured
webhooks and exposes an HTTP API guarded by JWTs and API tokens. This
project models:

- **webhook delivery**:
  - which active webhooks an event triggers, and the filters that decide it;
  - the first delivery attempt and its record;
  - the retry scan and its fixed backoff;
  - the HMAC signature check;
  - the delivery statistics;
- **the comma-list codecs** that store event types, filter lists and token
  scopes in one text column, and the phone-number normalisation;
- **the API-token model**: scopes, expiry and the scope codec;
- **the webhook handlers**: create, get, update, delete, delivery paging, test
  and stats;
- **the token handlers**: create, rotate, update, revoke and the token lookup;
- **the authentication middleware**: bearer extraction, query fallback,
  API-token authentication, JWT fallback and the per-route scope check.

The modules follow the Go packages:

| module | what it models |
|---|---|
| `WebhookModel`, `TokenModel` | `internal/models` |
| `WebhookFilters`, `Signature`, `WebhookService` | `internal/services/webhook.go` |
| `WebhookHandlers`, `TokenHandlers` | `internal/api/handlers` |
| `ApiTokenMiddleware` | `internal/api/middleware/api_token.go` |
| `Store` | the database, as a class `Database` holding one map per table, each with an auto-increment counter |

The helper modules model the standard library functions the code relies on:

- `Text`: `strings.Split`, `Join`, trimming and `EqualFold`;
- `Hex`: `encoding/hex`;
- `Decimal`: `strconv.ParseUint` and `strconv.Atoi`.

Modelling conventions:

- Loops of the source that build values are methods proved equal to a specification function. Handlers that change the database are methods on `Database`, whose `ensures` give the new tables.
- A handler's JSON answer is a `Reply`: `Ok(status, body)` or `Err(status, message)`.
- These are parameters:
  - time: an integer number of seconds;
  - HMAC-SHA256: `Mac`;
  - SHA-256: `Sha`;
  - the outcome of the HTTP POST: `Sender`;
  - the random token bytes;
  - JWT parsing: `Jwt`.

Where the code and its documentation disagree, the model follows the code:

- An update that sends `"event_types": []` is accepted and stores an empty list, after which the webhook never fires (`WebhookHandlers.ClearedEventTypesNeverTrigger`).
- The group-JID filter compares against the sender `From`, not a group id (`WebhookFilters.GroupJIDFilterUsesSender`).
- The retry scan also picks records whose `next_retry_at` is NULL (`WebhookService.UnscheduledFailureDue`).

## Model

| member | source | states |
|---|---|---|
| WebhookModel.TrimSpace | internal/models/webhook.go:199-209 | the index loops compute `Trimmed(s, Blanks)`: blanks, tabs, line feeds and carriage returns removed at both ends |
| Text.TrimmedShape | internal/models/webhook.go:199-209 | the trimmed string is a contiguous slice of the input, only white space is cut, and the result is trimmed |
| Text.TrimmedIdempotent | internal/models/webhook.go:199-209 | trimming twice equals trimming once |
| WebhookModel.SplitAndTrim | internal/models/webhook.go:182-196 | the index loop yields each comma-separated part, trimmed, the last part included |
| WebhookModel.SplitAndTrimShape | internal/models/webhook.go:182-196 | there are exactly (number of commas + 1) parts, and each is trimmed |
| WebhookModel.KeepNonEmpty | internal/models/webhook.go:157-162 | the filter loop keeps exactly the non-empty parts, in order |
| WebhookModel.ParseEventTypes | internal/models/webhook.go:153-164 | "" parses to no elements; otherwise the result is the trimmed non-empty comma-separated parts (`ParsedList`) |
| WebhookModel.ParsedListElements | internal/models/webhook.go:153-164 | every parsed element is non-empty, comma-free and trimmed |
| WebhookModel.JoinEventTypes | internal/models/webhook.go:167-179 | the loop produces the elements separated by single commas ("" for no elements) |
| Text.JoinLength | internal/models/webhook.go:167-179 | a joined list has length sum of lengths + n - 1 |
| WebhookModel.ParseJoinRoundTrip | internal/models/webhook.go:153-179 | parsing a joined list gives the list back when every element is non-empty, comma-free and trimmed |
| WebhookModel.JoinEmpty | internal/models/webhook.go:154-156 | joining no elements gives "", and parsing "" gives no elements |
| WebhookModel.NormalizePhoneNumber | internal/models/webhook.go:213-222 | the loop keeps exactly the ASCII digits, in order (`Digits`) |
| WebhookModel.DigitsShape | internal/models/webhook.go:213-222 | the result is all digits, no longer than the input, and a digit string is left as it is |
| WebhookModel.DigitsAppend | internal/models/webhook.go:213-222 | normalisation distributes over concatenation, so it keeps the digit subsequence in order |
| WebhookModel.DigitsIdempotent | internal/models/webhook.go:213-222 | normalising twice equals normalising once |
| WebhookModel.PhoneNumberMatches | internal/models/webhook.go:226-234 | true exactly when some list entry normalises to the same digits as the phone; false for an empty list |
| WebhookModel.Webhook.ToResponse | internal/models/webhook.go:135-150 | definition: the API view, with each list column parsed by `ParseEventTypes` and without the secret (properties in `ToResponseHidesSecret`) |
| WebhookModel.ToResponseHidesSecret | internal/models/webhook.go:135-150 | the response never carries the secret: two webhooks differing only in it give the same response |
| TokenModel.AvailableScopesDistinct | internal/models/api_token.go:17-25 | exactly five distinct scopes, "all" first |
| TokenModel.SplitScopes | internal/models/api_token.go:80-97 | the character loop yields `ScopeList(s)`: the non-empty comma-separated runs, untrimmed |
| TokenModel.ScopeListElements | internal/models/api_token.go:80-97 | no yielded scope is empty or holds a comma, and each is one of the comma-separated parts |
| TokenModel.JoinScopes | internal/models/api_token.go:99-108 | the loop produces the scopes separated by single commas ("" for none) |
| TokenModel.GetScopes | internal/models/api_token.go:53-64 | the token's scopes are `ScopeList` of the stored string, empty for "" |
| TokenModel.SetScopes | internal/models/api_token.go:66-69 | only the scopes column changes, to the joined list; reading it back gives the list when no scope is empty or holds a comma |
| TokenModel.ScopesRoundTrip | internal/models/api_token.go:53-108 | `GetScopes` after `SetScopes(xs)` is `xs` for non-empty, comma-free scopes |
| TokenModel.ScopeListNormalises | internal/models/api_token.go:53-108 | storing the parsed scopes again changes nothing |
| TokenModel.GrantsScope | internal/models/api_token.go:42-50 | the recursive early-return check is true exactly when some scope is "all" or the asked scope |
| TokenModel.APIToken.HasScope | internal/models/api_token.go:42-50 | the token grants a scope exactly when its parsed scopes hold "all" or that scope |
| TokenModel.APIToken.IsExpired | internal/models/api_token.go:72-77 | definition: expired exactly when there is an expiry time and now is strictly after it (properties in `ExpiryMonotone`) |
| TokenModel.APIToken.ToResponse | internal/models/api_token.go:139-149 | definition: the API view with the parsed scopes and without the hash (properties in `ToResponseHidesHash`) |
| TokenModel.EmptyScopesGrantNothing | internal/models/api_token.go:42-56 | with an empty scopes column, the token has no scopes and grants none |
| TokenModel.AllGrantsEverything | internal/models/api_token.go:42-50 | a token holding "all" grants every scope |
| TokenModel.ExpiryMonotone | internal/models/api_token.go:72-77 | no expiry never expires; otherwise expiry is strictly after `expires_at`, and once expired a token stays expired |
| TokenModel.ToResponseHidesHash | internal/models/api_token.go:139-149 | the response does not depend on the hash and lists `GetScopes()` |
| Hex.Encode | internal/services/webhook.go:261 | hex encoding doubles the length and uses only lower-case hex digits |
| Hex.DecodeEncode | internal/api/handlers/tokens.go:26 | hex encoding is decoded back to the same bytes |
| Hex.EncodeInjective | internal/api/handlers/tokens.go:26 | different byte strings have different hex encodings |
| Signature.CalculateSignature | internal/services/webhook.go:258-262 | the signature is 64 lower-case hex characters, the encoding of the 32-byte MAC |
| Signature.StripPrefix | internal/services/webhook.go:433-436 | one leading "sha256=" is removed when present, otherwise the signature is unchanged |
| Signature.ValidateSignature | internal/services/webhook.go:427-443 | definition: false for an empty secret or signature, otherwise compares the signature less one prefix with the expected hex (characterised by `ValidateSignatureIff`) |
| Signature.ValidateSignatureIff | internal/services/webhook.go:427-443 | valid exactly when secret and signature are non-empty and the signature, less one "sha256=", equals the expected hex |
| Signature.BareSignatureValidates | internal/services/webhook.go:427-443 | a bare computed signature validates for every non-empty secret |
| Signature.PrefixedSignatureValidates | internal/services/webhook.go:427-443 | "sha256=" plus the computed signature validates for a non-empty secret |
| Signature.DoublePrefixRejected | internal/services/webhook.go:433-436 | only one prefix is stripped, so a doubled prefix is rejected |
| Signature.OtherDigestRejected | internal/services/webhook.go:438-442 | the hex of any other digest is rejected, with or without the prefix |
| Signature.OutgoingSignature | internal/services/webhook.go:186-189 | no signature without a secret; otherwise the computed signature |
| Signature.SignatureHeader | internal/services/webhook.go:235-237 | the header is sent exactly for a non-empty signature, and stripping its prefix gives the signature |
| Signature.OutgoingHeaderValidates | internal/services/webhook.go:186-189 | the header the service sends validates under the same secret, and it is sent exactly when there is a secret |
| Text.AnyEqualFold | internal/services/webhook.go:417-424 | `contains` is true exactly when some element equals the item ignoring case |
| WebhookFilters.MatchesFilters | internal/services/webhook.go:101-164 | definition: the filter checks in the service's order, stopping at the first that rejects (characterised by `MatchesFiltersIff`) |
| WebhookFilters.ShouldTrigger | internal/services/webhook.go:68-88 | definition: the webhook is the user's and active, an event type equals the event up to case, and a received message passes the filters |
| WebhookFilters.MatchesFiltersIff | internal/services/webhook.go:101-164 | the filter holds exactly when chat type, phone list and group lists all allow the message |
| WebhookFilters.ChatTypeRejects | internal/services/webhook.go:103-111 | "individual" rejects group messages and "group" rejects direct ones |
| WebhookFilters.OtherChatTypesUnrestricted | internal/services/webhook.go:103-111 | any other chat type, "" and "all" included, restricts nothing |
| WebhookFilters.PhoneFilterModes | internal/services/webhook.go:114-128 | with a non-empty phone list: whitelist or "" rejects exactly the unlisted sender, blacklist exactly the listed one, any other mode nothing |
| WebhookFilters.EmptyPhoneListUnrestricted | internal/services/webhook.go:114-115 | an empty phone list makes the match type irrelevant |
| WebhookFilters.WhitelistBlacklistComplement | internal/services/webhook.go:122-127 | otherwise admitted, a message passes the whitelist exactly when it fails the blacklist |
| WebhookFilters.DirectMessagesIgnoreGroupLists | internal/services/webhook.go:131 | group lists never affect direct messages |
| WebhookFilters.GroupJIDFilterUsesSender | internal/services/webhook.go:133-145 | a non-empty JID list admits a group message exactly by a case-insensitive match of the sender `From` |
| WebhookFilters.WhitelistIgnoresPunctuation | internal/models/webhook.go:226-234 | "+1 234-567-8900" whitelists sender 12345678900 |
| WebhookFilters.SingleEntryParsed | internal/models/webhook.go:153-164 | a single clean entry parses to itself |
| WebhookFilters.EntryDigits | internal/models/webhook.go:213-222 | the digits of "+1 234-567-8900" are "12345678900" |
| WebhookFilters.PrefixDigits | internal/models/webhook.go:213-222 | the digits of "+1 234" are "1234" |
| WebhookFilters.DashDigits | internal/models/webhook.go:213-222 | a dash before a digit run is dropped |
| WebhookFilters.OtherDataSkipsFilters | internal/services/webhook.go:79-84 | for data other than a received message, a webhook fires exactly on an event-type match |
| WebhookFilters.NoEventTypesNeverTrigger | internal/services/webhook.go:79-81 | a webhook with no stored event types never fires |
| WebhookService.SendOutcome | internal/services/webhook.go:240-254 | success exactly for a 2xx response; a transport error gives status 0, an empty body and an error message |
| WebhookService.Post | internal/services/webhook.go:186-190 | definition: one POST of the payload to the webhook's URL, signed when it has a secret, reduced to its outcome by `SendOutcome` |
| WebhookService.Backoff | internal/services/webhook.go:266-280 | the wait is always one of the five table entries (the table itself is `BackoffTable`) |
| WebhookService.NextRetry | internal/services/webhook.go:266-280 | the next retry is 1 to 60 minutes ahead |
| WebhookService.BackoffTable | internal/services/webhook.go:266-280 | 1, 5, 15 and 30 minutes for counts 0 to 3, then 60 minutes for every count from 4 |
| WebhookService.BackoffMonotone | internal/services/webhook.go:266-280 | the backoff never shrinks as the count grows |
| WebhookService.FirstAttempt | internal/services/webhook.go:192-212 | definition: the first-attempt record built from the POST's outcome (properties in `FirstAttemptSchedule`) |
| WebhookService.IsDue | internal/services/webhook.go:307-310 | definition: the retry scan's condition, failed, under 5 retries, and a retry time that is NULL or not later than now |
| WebhookService.FirstAttemptSchedule | internal/services/webhook.go:192-212 | the first record has retry count 0, success exactly for 2xx, and a retry one minute ahead exactly when it failed |
| WebhookService.DeliverWebhook | internal/services/webhook.go:167-220 | without a payload nothing is stored; otherwise exactly one record, the first attempt, is added under a fresh key |
| WebhookService.SelectSubscribers | internal/services/webhook.go:68-94 | the selection loop picks exactly the active webhooks of the user that `ShouldTrigger`, and counts them |
| WebhookService.Selects | internal/services/webhook.go:79-88 | one webhook fires exactly when its parsed event types contain the event case-insensitively and, for a received message, the filters hold |
| WebhookService.TriggerWebhooks | internal/services/webhook.go:59-98 | the triggered set is `Subscribers` and its size the count; each triggered webhook whose payload encodes gets exactly one new record, the first attempt of its POST; no other record is added or changed, and the webhooks and tokens stay |
| WebhookService.RunDeliveries | internal/services/webhook.go:79-94 | the deliveries started by the trigger loop, run one after the other, add exactly one first-attempt record per target with a payload, and nothing else |
| WebhookService.DeliverTo | internal/services/webhook.go:91 | one delivery adds the first-attempt record of the POST to that webhook, or nothing when its payload does not encode |
| WebhookService.NoPayloadNoRecord | internal/services/webhook.go:171-178 | a webhook whose payload does not encode, or that is not a target, gets no record |
| WebhookService.DeliveredToCompose | internal/services/webhook.go:79-94 | delivering to two disjoint sets in turn delivers to their union, still one record per webhook |
| WebhookService.RetryFailedDeliveries | internal/services/webhook.go:298-324 | the scan retries exactly the due records (failed, under 5 retries, retry time NULL or past) and updates each by `RetryResult` |
| WebhookService.UnscheduledFailureDue | internal/services/webhook.go:307-310 | a failed record with NULL retry time is due at any time |
| WebhookService.Retried | internal/services/webhook.go:350-367 | definition: the record after a retry with a given outcome (properties in `RetriedShape`, `RetriedDueAgain`, `LastRetryFinal`) |
| WebhookService.RetryResult | internal/services/webhook.go:327-367 | definition: unchanged for a missing or inactive webhook, otherwise `Retried` with the POST of the stored payload to the webhook's current URL and secret |
| WebhookService.RetryDelivery | internal/services/webhook.go:327-372 | a record of a missing or inactive webhook is untouched; otherwise it is updated by `Retried` |
| WebhookService.InactiveWebhookUntouched | internal/services/webhook.go:330-338 | a retry for a missing or inactive webhook changes nothing |
| WebhookService.RetriedShape | internal/services/webhook.go:350-367 | the count becomes old + 1; a retry is scheduled at now + backoff(old + 1) exactly when the retry failed and old + 1 < 5; the error is overwritten only on a transport error |
| WebhookService.RetriedDueAgain | internal/services/webhook.go:350-367 | a retried record is due again exactly when it failed, is under the ceiling and its new time has come |
| WebhookService.LastRetryFinal | internal/services/webhook.go:362-367 | after the fifth attempt a record is never due again |
| WebhookService.TestDelivery | internal/services/webhook.go:375-414 | the test record is event "test", retry count 0, never scheduled, successful exactly when the POST was |
| WebhookService.FailedTestDeliveryDue | internal/services/webhook.go:398-411 | a failed test record, once stored, is picked by every later retry scan |
| WebhookService.GetWebhookStats | internal/services/webhook.go:468-495 | successful and failed count the webhook's records with each success flag, and total = successful + failed = number of the webhook's records; the rate is between 0 and 100, 0 for no records, 100 when none failed |
| WebhookService.Percentage | internal/services/webhook.go:482-485 | a share of a non-zero total is a percentage, 100 for the whole |
| WebhookService.ParseEventTypesFromString | internal/services/webhook.go:446-460 | "" gives no elements; otherwise the comma parts trimmed of Unicode white space, empty ones dropped |
| WebhookService.TrimAndKeep | internal/services/webhook.go:453-458 | the loop trims each part and keeps the non-empty ones, in order |
| WebhookService.ParsersAgree | internal/services/webhook.go:446-460 | on text whose only white space is ASCII, the service's parser agrees with the models' parser |
| Decimal.Atoi | internal/api/handlers/webhooks.go:283-290 | strconv.Atoi: an optional sign and decimal digits; a parsed value lies in the int64 range |
| Decimal.ParseUint | internal/api/handlers/webhooks.go:104 | strconv.ParseUint in base 10: decimal digits only, and a parsed value is below 2^bitSize |
| Store.DeliveriesExcept | internal/api/handlers/webhooks.go:240 | exactly the records of other webhooks remain, unchanged |
| Store.Database.InsertWebhook | internal/api/handlers/webhooks.go:88 | the webhook is stored under a fresh key, and nothing else changes |
| Store.Database.UpdateWebhook | internal/api/handlers/webhooks.go:205 | the stored webhook is replaced, and nothing else changes |
| Store.Database.DeleteWebhook | internal/api/handlers/webhooks.go:243 | the webhook row is removed, and nothing else changes |
| Store.Database.InsertDelivery | internal/services/webhook.go:215 | the record is stored under a fresh key |
| Store.Database.UpdateDelivery | internal/services/webhook.go:369 | the stored record is replaced |
| Store.Database.DeleteDeliveriesOf | internal/api/handlers/webhooks.go:240 | exactly the webhook's records are removed |
| Store.Database.InsertToken | internal/api/handlers/tokens.go:100 | fails exactly when the hash is already stored (unique column); otherwise the token is stored under a fresh key |
| Store.Database.UpdateToken | internal/api/handlers/tokens.go:280 | the stored token is replaced, keeping its hash |
| Store.Database.DeleteToken | internal/api/handlers/tokens.go:171 | the token row is removed |
| Store.Database.FindActiveByHash | internal/api/handlers/tokens.go:302 | finds a stored token exactly when an active one has the hash, and returns that row |
| WebhookHandlers.CreateWebhook | internal/api/handlers/webhooks.go:41-94 | 401 without a user, then 400 for no event types, a bad match type or a bad chat type, storing nothing; otherwise stores the joined lists and answers 201 with the response |
| WebhookHandlers.CreatedReadsBack | internal/api/handlers/webhooks.go:73-93 | the response of a created webhook lists exactly the submitted event types and filter lists when they are clean |
| WebhookHandlers.CreatedSubscribes | internal/api/handlers/webhooks.go:73-84 | an active created webhook fires for each event type it was created with |
| WebhookHandlers.Owned | internal/api/handlers/webhooks.go:97-118 | found exactly when there is a user, the id parses as a 32-bit decimal, and that webhook exists and belongs to the user; otherwise 401, 400 or 404 |
| WebhookHandlers.ForeignLooksMissing | internal/api/handlers/webhooks.go:113-117 | another user's webhook answers exactly as a missing one |
| WebhookHandlers.OwnerFindsWebhook | internal/api/handlers/webhooks.go:104-119 | the owner finds the webhook by its decimal id |
| WebhookHandlers.GetWebhook | internal/api/handlers/webhooks.go:97-120 | answers the lookup's error, or 200 with the response |
| WebhookHandlers.UpdatesExact | internal/api/handlers/webhooks.go:163-198 | a column is in the updates exactly when its rule writes it, with the rule's value |
| WebhookHandlers.BuildUpdates | internal/api/handlers/webhooks.go:163-198 | the key-by-key construction yields exactly `Updates(req)` |
| WebhookHandlers.BuildWebhookUpdates | internal/api/handlers/webhooks.go:166-182 | the first five columns are built as the rules say |
| WebhookHandlers.BuildFilterUpdates | internal/api/handlers/webhooks.go:183-198 | the five filter columns complete the map |
| WebhookHandlers.UpdateFieldRules | internal/api/handlers/webhooks.go:166-198 | url, secret, match type and chat type change only when non-empty; description when url or description is non-empty; the flag when sent; the lists when sent (an empty list stores ""); id, owner and creation time are kept |
| WebhookHandlers.NoFieldsIff | internal/api/handlers/webhooks.go:200-203 | the updates map is empty exactly when the request carries no field |
| WebhookHandlers.ApplyIdempotent | internal/api/handlers/webhooks.go:205 | applying the same updates twice equals applying them once |
| WebhookHandlers.UpdatedListsReadBack | internal/api/handlers/webhooks.go:177-198 | each of the four lists (event types, phone numbers, group JIDs, group names), when sent and clean, reads back unchanged in the response, whatever else is sent |
| WebhookHandlers.ClearedEventTypesNeverTrigger | internal/api/handlers/webhooks.go:177-179 | sending an empty event-type list is a valid update, after which the webhook never fires |
| WebhookHandlers.UpdateWebhook | internal/api/handlers/webhooks.go:123-214 | lookup errors first, then 400 for a bad match or chat type, then 400 "No fields to update", all storing nothing; otherwise stores the updated webhook and answers 200 |
| WebhookHandlers.CascadeKeepsReferences | internal/api/handlers/webhooks.go:239-243 | removing a webhook with its records leaves no record pointing at a missing webhook |
| WebhookHandlers.DeleteWebhook | internal/api/handlers/webhooks.go:217-249 | after the lookup, removes exactly that webhook's records and then the webhook; other records stay |
| WebhookHandlers.PageLimit | internal/api/handlers/webhooks.go:280-286 | the limit is the parsed query when it is an integer in 1..100, otherwise 50 |
| WebhookHandlers.PageOffset | internal/api/handlers/webhooks.go:288-293 | the offset is the parsed query when it is an integer >= 0, otherwise 0 |
| WebhookHandlers.PageQueriesReadBack | internal/api/handlers/webhooks.go:280-293 | a printed number reads back as the limit when it is 1..100 and as the offset up to 2^63 - 1 |
| WebhookHandlers.ListWebhookDeliveries | internal/api/handlers/webhooks.go:257-326 | after the lookup, answers the webhook's record count with limit `PageLimit(limit query)` and offset `PageOffset(offset query)` |
| WebhookHandlers.TestWebhook | internal/api/handlers/webhooks.go:329-378 | after the lookup, stores the test record under a fresh key and answers it |
| WebhookHandlers.GetWebhookStats | internal/api/handlers/webhooks.go:381-415 | after the lookup, answers 200 with exactly `WebhookService.GetWebhookStats` of the stored records for that webhook |
| TokenHandlers.GenerateToken | internal/api/handlers/tokens.go:17-29 | "plt_live_" followed by 64 lower-case hex characters |
| TokenHandlers.GeneratedTokenDecodes | internal/api/handlers/tokens.go:17-29 | the hex part is the Base16 of the 32 random bytes |
| TokenHandlers.HashToken | internal/api/handlers/tokens.go:32-35 | the stored hash is 64 lower-case hex characters (a 32-byte digest) |
| TokenHandlers.HashTokenInjective | internal/api/handlers/tokens.go:32-35 | equal stored hashes mean equal digests |
| TokenHandlers.KnownScopes | internal/api/handlers/tokens.go:65-70 | the requested scopes that are available, in order, duplicates kept; empty exactly when none is available |
| TokenHandlers.ValidatedScopes | internal/api/handlers/tokens.go:52-70 | ["all"] when "all" is requested; every validated scope is available; empty exactly when no requested scope is |
| TokenHandlers.ValidateScopes | internal/api/handlers/tokens.go:45-70 | the scope-map loop, the "all" search with its break and the filter loop compute `ValidatedScopes` |
| TokenHandlers.ValidatedScopesStored | internal/api/handlers/tokens.go:96-110 | the validated scopes survive storage: the response lists them exactly |
| TokenHandlers.ValidatedScopesGrantRequested | internal/api/handlers/tokens.go:52-70 | the new token grants every available scope that was requested |
| TokenHandlers.ValidateAndGetToken | internal/api/handlers/tokens.go:293-312 | no prefix: rejected without lookup; no active row with the hash: lookup error; accepted exactly when an active, unexpired row has the hash, and that row is returned |
| TokenHandlers.CreateToken | internal/api/handlers/tokens.go:38-114 | 400 when no scope validates, then 401 without a user; 500 when the hash is taken; otherwise stores an active token with the hash and the validated scopes and answers 201 with the raw token |
| TokenHandlers.OwnedToken | internal/api/handlers/tokens.go:148-168 | found exactly when there is a user and the id names a token of the user; otherwise 401, 400 for an empty id, or 404 |
| TokenHandlers.ForeignTokenLooksMissing | internal/api/handlers/tokens.go:165-168 | another user's token answers exactly as a missing one |
| TokenHandlers.DeleteToken | internal/api/handlers/tokens.go:148-177 | after the lookup, removes exactly that token and answers 200 |
| TokenHandlers.Rotated | internal/api/handlers/tokens.go:207-214 | the replacement copies user, name, scopes and expiry, with a new hash, active and never used |
| TokenHandlers.RotatedGrantsAlike | internal/api/handlers/tokens.go:207-214 | the replacement grants the same scopes and expires at the same time |
| TokenHandlers.RotateToken | internal/api/handlers/tokens.go:180-235 | after the lookup, stores the replacement (500 when its hash is taken) and removes the old token, answering with the raw new token |
| TokenHandlers.BuildTokenUpdates | internal/api/handlers/tokens.go:271-278 | the map holds the name when non-empty and the flag when sent |
| TokenHandlers.TokenUpdateRules | internal/api/handlers/tokens.go:271-280 | only the name (when non-empty) and the active flag (when sent) change, besides the update time |
| TokenHandlers.UpdateToken | internal/api/handlers/tokens.go:243-289 | after the lookup, stores the updated token and answers 200 with its response |
| ApiTokenMiddleware.BearerToken | internal/api/middleware/api_token.go:57-63 | definition: the second part when the header splits at spaces into exactly "Bearer" and one more part, else "" (characterised by `BearerTokenIff`) |
| ApiTokenMiddleware.BearerTokenIff | internal/api/middleware/api_token.go:57-63 | a token is extracted exactly when the header is "Bearer", one space and a space-free token |
| ApiTokenMiddleware.GeneratedTokenInHeader | internal/api/middleware/api_token.go:57-63 | a generated token travels through the header unchanged |
| ApiTokenMiddleware.CheckScopes | internal/api/middleware/api_token.go:94-107 | no required scopes always passes; otherwise passes exactly when the token grants one of them |
| ApiTokenMiddleware.RequireScope | internal/api/middleware/api_token.go:216-229 | requests without an API token pass; with one, passes exactly when the token has the scope or "all", otherwise 403 naming the scope |
| ApiTokenMiddleware.RequireScopeAllRedundant | internal/api/middleware/api_token.go:221 | the explicit "all" test adds nothing to `HasScope` |
| ApiTokenMiddleware.AdmittedPassesRequireScope | internal/api/middleware/api_token.go:115-116 | a token admitted for a route requiring a scope also passes that scope check |
| ApiTokenMiddleware.Stamped | internal/api/middleware/api_token.go:110-112 | a used token differs only in last-used and update time, both now |
| ApiTokenMiddleware.AuthenticateApiToken | internal/api/middleware/api_token.go:79-118 | 401 for no valid token, 401 when expired at the second check, 403 without a required scope, changing nothing; otherwise stamps the token and continues as its user |
| ApiTokenMiddleware.APITokenMiddleware | internal/api/middleware/api_token.go:46-120 | an authenticated request or a non-API token passes untouched; no bearer token gives 401; an API token passes exactly when a stored token admits it, with userID its owner |
| ApiTokenMiddleware.AuthMiddlewareWithFallback | internal/api/middleware/api_token.go:123-213 | the query token is used only when the header has none; none at all gives 401; API tokens as above; otherwise the JWT's claims, 401 on a parse error or invalid claims |

## Left out

- Concurrency: the goroutine per delivery, the wait group, the retry ticker and the singleton are left out. Each trigger and each retry scan runs its deliveries one after another.
- The HTTP POST is a `Sender` parameter. Only its result is modelled (2xx is success). Headers other than the signature, and the response body size, are left out.
- HMAC-SHA256 and SHA-256 are the parameters `Mac` and `Sha`, uninterpreted except that each returns a 32-byte `Digest`. The constant-time comparison is plain equality. Randomness is the 32 input bytes. JWT parsing is the `Jwt` parameter.
- JSON: payloads are opaque bytes, which retries resend unchanged. Request binding and its "Invalid request body" errors are not modelled.
- Database errors:
  - Failed lookups and writes are modelled only where the model can cause them: missing rows, and a duplicate token hash.
  - Other errors and the 500 answers they give are left out: "Failed to update webhook", "Failed to delete webhook", "Failed to delete token", "Failed to update token" and "Failed to get stats".
  - The ignored error when rotation deletes the old token is left out too.
- gorm defaults on create are not modelled: `is_active` false turning into true, and the default match and chat types. A created webhook stores exactly the request's values. The automatic `updated_at` stamp on updates is modelled.
- WebhookHandlers.ListWebhookDeliveries: answers the total, limit and offset only. It does not model the page rows, their order by creation time, or the response records.
- WebhookService.GetWebhookStats: the success rate is a real number, not the string formatted to two decimals. The last-delivery fields are left out.
- Text.AnyEqualFold: folds ASCII letters only; Unicode case folding is not modelled. Strings are sequences of characters, not UTF-8 bytes, so byte and rune iteration coincide.
- TokenHandlers.OwnedToken: a token id that is not a decimal number names no token. This approximates SQL's coercion of the string id.
- ApiTokenMiddleware.AuthenticateApiToken: the clock is read at `validatedAt` for the lookup's expiry check. The second expiry check and the last-used stamp share a single `now`.
- The ListWebhooks, ListTokens, ListWebhookEvents and GetAvailableScopes handlers only read and list rows, and are left out.
- The middleware's private copies of the hash and the lookup (internal/api/middleware/api_token.go:16-42) are the same code as the handlers' and are modelled once, by TokenHandlers.HashToken and TokenHandlers.ValidateAndGetToken.
- Loop variables: the trigger loop hands `&webhook`, the loop variable, to each goroutine (internal/services/webhook.go:79 and :92). The model delivers each target's own stored webhook, which is what Go 1.22's per-iteration loop variables give. Under older Go, goroutines may all see the last webhook selected, and that behaviour is not modelled.
- Ordering: the database returns rows in no particular order, and the model's selection and retry loops take rows in any order.
