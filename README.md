# Guidr front end: review drafts, API client rules and dashboard aggregates

This project models three parts of the Guidr web client in Dafny and proves properties of the model.

1. **The admin review draft engine** (`src/pages/admin/review/page.tsx`). An administrator opens a daily event and edits a draft list of match predictions. Edits are saved in the background by a 700 ms debounced auto-save, which is skipped for the render that loads an event. `saveReview` writes the draft explicitly and closes the event.
   - The pure helpers live in module `AdminReview`: the AI auto-selection rule, the odds product, the normaliser applied before every write, the one-field edit, the reconcile lookup and the local update after an auto-save.
   - The page state lives in class `AdminReviewPage.ReviewPage`. Every state variable and ref the draft engine reads is a field, every handler in scope is a method, and one pass of the auto-save effect runs after each handler that changes one of its dependencies.
2. **The request rules of the API client** (`src/lib/api.ts`), in module `Api`:
   - base-URL choice;
   - the `Content-Type` and admin `Authorization` headers;
   - error-message precedence;
   - unwrapping of the `{ data }` envelope;
   - `getUserHistory` normalisation;
   - three endpoint URLs.
3. **The dashboard aggregates** (`src/pages/dashboard/page.tsx`), in module `Dashboard`:
   - the active-stake totals and the profit percentage;
   - the headline odds;
   - the defaulting of the fetched payloads.

Shared modules:
- `JsValues`: JSON-like JavaScript values, truthiness, number arithmetic with NaN and infinities, `Number(x.toFixed(4))` as `Round4`, and `parseFloat`.
- `Sequences`: `Array.prototype.filter` and its facts.
- `Wrappers`: `Option` and `Result`.

Modelling choices:
- Numbers are exact reals extended with NaN and the two infinities. Binary floating-point rounding and `-0` are not modelled.
- `Round4` rounds half away from zero on the four-decimal grid. Its idempotence is proved, not assumed.
- A `Match` is a map from property names to values, so `{ ...m, [field]: v }` is a map update.
- Time is explicit. `ReviewPage.Tick` runs one queued zero-delay callback that lowers the skip flag. `ReviewPage.Fire` runs the pending 700 ms auto-save callback.
- Backend writes are appended to the `writes` field.
- Inputs from outside are parameters:
  - whether a write succeeds and what a fetch returns;
  - the HTTP response;
  - `VITE_API_URL`;
  - the page's hostname;
  - the stored admin token.

Behaviour of the code that is easy to get wrong, as the model states it:
- **Odds edits write the raw value first.** An odds edit whose value does not parse still stores the raw value in `odds`; only `predictedOdds` keeps its old value.
- **`parseFloat` reads a leading number.** A text like `"1.2abc"` parses to 1.2, so both odds fields become 1.2; it is not rejected. `OddsEditParsesLeadingNumber` proves this, and `OddsEditKeepsUnparseableText` covers text with no leading number.
- **A cleared number input poisons the total.** The input hands over `parseFloat` of its value, which is NaN once the field is cleared. The NaN is stored and makes the draft's total NaN (`ClearedOddsPoisonsTotal`).
- **The re-selection lookup uses the whole published list.** After the pending list, `fetchEvents` searches the unfiltered published list, so an event already resulted is re-selected. `ReselectFromPublished` proves this.
- **Reset runs the auto-save effect.** `resetToAiPredictions` reloads the draft and, unlike a load, runs the auto-save effect. That schedules a save unless the skip flag of a load whose zero-delay callback has not yet run is still raised. It reloads from the selected event as it was when opened, which does not include drafts auto-saved since.
- **A re-fetch cancels a pending auto-save.** A re-fetch that re-selects the open event cancels the pending auto-save (`ReselectCancelsPendingSave`). The effect's cleanup cancels the timer, and the re-selection raises the skip flag.
- **The skip flag starts raised.** It is `true` at first and lowered by the mount effect. `ReviewPage.constructor` is the page after mounting.

## Model

| member | source | states |
|---|---|---|
| AdminReview.AiSelection | src/pages/admin/review/page.tsx:280-295 | No contract of its own; `AdminReview.AiSelectionRule` states what it selects. |
| AdminReview.LoadDraft | src/pages/admin/review/page.tsx:174-177 | No contract of its own; `AdminReview.LoadDraftEmptyIff` states when it is empty, and `AdminReviewPage.ReviewPage.Open` uses it as the loaded draft. |
| AdminReview.OddsFactor | src/pages/admin/review/page.tsx:268-278 | No contract of its own; `AdminReview.TotalOddsSnoc` and `AdminReview.TotalOddsExample` state the factor each record contributes. |
| AdminReview.TotalOdds | src/pages/admin/review/page.tsx:268-278 | No contract of its own; `AdminReview.TotalOddsIsFold`, `AdminReview.TotalOddsIsProduct` and `AdminReview.TotalOddsPermutation` state what it computes. |
| AdminReview.AiTotalOdds | src/pages/admin/review/page.tsx:297-300 | No contract of its own; `AdminReview.AiTotalOddsFallback` states it. |
| AdminReview.AiMatchCount | src/pages/admin/review/page.tsx:302-305 | No contract of its own; `AdminReview.AiMatchCountIsSelectionSize` states it. |
| AdminReview.PendingOf | src/pages/admin/review/page.tsx:121-124 | No contract of its own; it picks the pending list out of each accepted payload shape, and `AdminReviewPage.ReviewPage.FetchEvents` states the list it sets. |
| AdminReview.PublishedOf | src/pages/admin/review/page.tsx:125-127 | No contract of its own; `AdminReview.VisiblePublished` and `AdminReview.VisiblePublishedCount` state what is shown of it. |
| AdminReview.IsReviewable | src/pages/admin/review/page.tsx:130-132 | No contract of its own; `AdminReview.VisiblePublished` and `AdminReview.ResultedEventsHidden` state its use. |
| AdminReview.FindById | src/pages/admin/review/page.tsx:139-141 | No contract of its own; `AdminReview.FindIndex` states which event it returns, and `AdminReview.Lookup` states the combined lookup. |
| AdminReview.AiSelectionRule | src/pages/admin/review/page.tsx:280-295 | The AI selection is empty iff the event has no matches, even when `aiPredictions` has auto-selected records. Otherwise it is the auto-selected matches, in their order in `matches`, if there are any. Failing that it is the auto-selected AI predictions, in their order in `aiPredictions`, if there are any. Otherwise it is all matches. Each of the first two is pinned as an order-preserving subsequence with the exact multiplicities, so it is the filtered list itself. |
| AdminReview.LoadDraftEmptyIff | src/pages/admin/review/page.tsx:174-177 | A load gives an empty draft exactly when the event has neither a stored admin draft nor matches. |
| AdminReview.TotalOddsSnoc | src/pages/admin/review/page.tsx:268-278 | Appending a record multiplies the total by its factor: `odds` if a number, else `predictedOdds` if a number, else 1. |
| AdminReview.TotalOddsAppend | src/pages/admin/review/page.tsx:268-278 | The total of a concatenation is the product of the two totals. |
| AdminReview.TotalOddsMoveLast | src/pages/admin/review/page.tsx:268-278 | Moving one record from the middle of the list to its end multiplies its factor in last and leaves the total unchanged. |
| AdminReview.TotalOddsPermutation | src/pages/admin/review/page.tsx:268-278 | Two drafts that are permutations of each other have the same total, NaN and infinities included. |
| AdminReview.TotalOddsCons | src/pages/admin/review/page.tsx:268-278 | Peeling off the first record instead of the last gives the same total: its factor times the total of the rest. |
| AdminReview.TotalOddsIsFold | src/pages/admin/review/page.tsx:268-278 | The total equals the generic left fold of `*` from 1 over the list of factors, one factor per record in order. |
| JsValues.MulAllIsProduct | src/pages/admin/review/page.tsx:268-278 | Over finite numbers the left fold of JavaScript `*` from 1 equals the real product of the numbers computed from the right. |
| AdminReview.TotalOddsIsProduct | src/pages/admin/review/page.tsx:268-278 | When every factor is finite, the total is `Finite` of the real product of the factors. |
| AdminReview.TotalOddsExample | src/pages/admin/review/page.tsx:268-278 | `[{odds: 1.5}, {predictedOdds: 2.0}, {}]` totals 3. |
| AdminReview.AiTotalOddsFallback | src/pages/admin/review/page.tsx:297-300 | The cached `totalOdds ?? 1` is used exactly when the event has no matches; otherwise the result is the product over the AI selection. |
| AdminReview.AiMatchCountIsSelectionSize | src/pages/admin/review/page.tsx:302-305 | The two fallbacks (to the number of matches, then to 0) never change the count: it is the size of the AI selection. |
| AdminReview.NormalizeRecord | src/pages/admin/review/page.tsx:214-240 | Every field other than the two odds fields is kept. A finite preferred odds gives `odds == predictedOdds == Round4(preferred)`. Otherwise each odds field is its own rounding if it is a number, else null. Both fields are always a number or null. |
| AdminReview.NormalizePredictions | src/pages/admin/review/page.tsx:212-241 | The output has one record per input record with both team names, in order. Each output record is `NormalizeRecord` of the kept input at its position: it has both team names and agrees with that input outside the odds fields. |
| AdminReview.NormalizeRecordIdempotent | src/pages/admin/review/page.tsx:215-239 | Normalising a normalised record changes nothing. |
| AdminReview.NormalizeIdempotent | src/pages/admin/review/page.tsx:212-241 | `normalize(normalize(R)) == normalize(R)`. |
| AdminReview.EditRecord | src/pages/admin/review/page.tsx:185-194 | Only the edited field and `predictedOdds` can change, and a non-odds field takes the raw value. An odds value that is not NaN sets both odds fields to its four-decimal rounding. A NaN value leaves `odds` raw and `predictedOdds` unchanged. |
| AdminReview.OddsEditKeepsFieldsEqual | src/pages/admin/review/page.tsx:187-193 | After an odds edit that parsed, both odds fields are equal, the record's factor is the rounded value, and rounding it again changes nothing. |
| AdminReview.OddsEditParsesLeadingNumber | src/pages/admin/review/page.tsx:187-193 | Editing odds to the text "1.2abc" sets both odds fields to 1.2. |
| AdminReview.OddsEditKeepsUnparseableText | src/pages/admin/review/page.tsx:186-191 | Editing odds to the text "abc" stores "abc" in `odds` and keeps `predictedOdds`. |
| AdminReview.ClearedOddsPoisonsTotal | src/pages/admin/review/page.tsx:186-193 | Editing any record's odds to NaN makes that record's factor and the draft's total NaN. |
| AdminReview.DropIndex | src/pages/admin/review/page.tsx:200 | An index in range removes exactly that element (length minus one, others in order, multiset minus that element). An out-of-range index changes nothing. |
| AdminReview.FindIndex | src/pages/admin/review/page.tsx:139-141 | The index of the first event with the id, or the length when none has it. |
| AdminReview.Lookup | src/pages/admin/review/page.tsx:139-141 | The result has the id and comes from one of the lists. It is None iff neither list has the id. An event in the pending list wins. When the pending list has the id, the result is its first match there. Otherwise the result is the first match in the whole published list. |
| AdminReview.VisiblePublished | src/pages/admin/review/page.tsx:130-132 | The shown published list holds only published events with status `PENDING` or empty. It keeps every such event and keeps their order. |
| AdminReview.VisiblePublishedCount | src/pages/admin/review/page.tsx:130-132 | Each reviewable published event is shown as many times as the server sent it; any other event is shown zero times. |
| AdminReview.ResultedEventsHidden | src/pages/admin/review/page.tsx:130-132 | An event with any other status never appears in the shown published list. |
| AdminReview.Reselected | src/pages/admin/review/page.tsx:138-158 | A fetch re-selects only when it succeeded and something was selected. The re-selected event has the same id and comes from the pending or published payload. When none is found, neither list has the id. |
| AdminReview.ReselectFromPublished | src/pages/admin/review/page.tsx:139-141 | An event that has left the pending list is re-selected from the full published list. |
| AdminReview.ApplySaved | src/pages/admin/review/page.tsx:348-356 | Only the events with the saved id change, and only their `adminPredictions` and `totalOdds`: the saved draft and its product. The list length and every other event are unchanged. |
| AdminReviewPage.ReviewPage.EffectTimer | src/pages/admin/review/page.tsx:331-362 | A timer is pending after an effect pass iff something is selected and the skip flag is down. It then carries the current draft and comments. |
| AdminReviewPage.ReviewPage.AutoSaveEffect | src/pages/admin/review/page.tsx:331-370 | One effect pass: the cleanup cancels any earlier timer, and the new timer is the one `EffectTimer` describes. |
| AdminReviewPage.ReviewPage.constructor | src/pages/admin/review/page.tsx:327-329 | After mounting, everything is empty, the skip flag is down and no queued callback or timer is pending. |
| AdminReviewPage.ReviewPage.Open | src/pages/admin/review/page.tsx:143-152 | A load raises the skip flag and queues one callback that lowers it. It sets the selection, the draft to `LoadDraft` and the comments, and leaves no timer pending. |
| AdminReviewPage.ReviewPage.SelectEvent | src/pages/admin/review/page.tsx:168-182 | A load as in `Open`, which also sets the result status (`PENDING` when the event has none) and the result details. |
| AdminReviewPage.ReviewPage.Tick | src/pages/admin/review/page.tsx:179-181 | A queued callback lowers the skip flag; with none queued nothing changes. |
| AdminReviewPage.ReviewPage.FetchEvents | src/pages/admin/review/page.tsx:118-166 | Both lists come from the payload, or are emptied on failure; a failure keeps the selection. Found: a load with the skip flag raised. Not found: no selection, an empty draft, comments untouched, no timer. |
| AdminReviewPage.ReviewPage.UpdateMatchPrediction | src/pages/admin/review/page.tsx:184-196 | Only the record at the index changes, to `EditRecord`. Then an effect pass runs. |
| AdminReviewPage.ReviewPage.RemoveMatch | src/pages/admin/review/page.tsx:198-201 | With at most one record nothing changes. Otherwise the draft becomes `DropIndex` and an effect pass runs, even for an out-of-range index. A non-empty draft never becomes empty. |
| AdminReviewPage.ReviewPage.ResetToAiPredictions | src/pages/admin/review/page.tsx:203-210 | With no selection nothing changes. Otherwise the draft is reloaded from the selected event and the auto-save effect runs, so a save is scheduled unless the skip flag is still raised. Comments are untouched. |
| AdminReviewPage.ReviewPage.EditComments | src/pages/admin/review/page.tsx:708 | The comments take the new text. An effect pass runs only when the text differs. |
| AdminReviewPage.ReviewPage.Fire | src/pages/admin/review/page.tsx:339-362 | A pending timer writes the normalised draft it captured, unapproved. On success the cached event with that id is updated as in `ApplySaved`. No timer is left. With no timer nothing happens. |
| AdminReviewPage.ReviewPage.SaveReview | src/pages/admin/review/page.tsx:243-266 | With no selection nothing happens. Otherwise the normalised draft is written with the comments and the approval flag. A failed write changes nothing else. After a successful one, the lists come from the re-fetch and the selection, draft and comments are cleared with no timer left. |
| AdminReviewPage.ReviewPage.CloseAfterSave | src/pages/admin/review/page.tsx:257-260 | After a successful write: the lists come from the re-fetch, then the selection, draft and comments are cleared and no timer is left; the skip flag and its queue grow only when the re-fetch re-selected the event. |
| AdminReviewPage.ReviewPage.CurrentMatches | src/pages/admin/review/page.tsx:307-315 | The on-screen draft for the open event when non-empty, otherwise the event's own `LoadDraft`. |
| AdminReviewPage.ReviewPage.CurrentTotalOdds | src/pages/admin/review/page.tsx:317-320 | No contract of its own; `AdminReviewPage.ReviewPage.CurrentSummaries` states it. |
| AdminReviewPage.ReviewPage.CurrentMatchCount | src/pages/admin/review/page.tsx:322-325 | No contract of its own; `AdminReviewPage.ReviewPage.CurrentSummaries` states it. |
| AdminReviewPage.ReviewPage.CurrentSummaries | src/pages/admin/review/page.tsx:317-325 | The current count is the size of the current list. The current total is its product, or `totalOdds ?? 1` when that list is empty. The list is empty exactly when there is no on-screen draft for the event, no stored draft and no matches. |
| AdminReviewPage.LoadDoesNotSave | src/pages/admin/review/page.tsx:331-334 | Opening an event and editing before the queued callback runs schedules no write. |
| AdminReviewPage.EditOverwrites | src/pages/admin/review/page.tsx:186 | A second edit of the same non-odds field replaces the first. |
| AdminReviewPage.OpenSettled | src/pages/admin/review/page.tsx:168-182 | A fresh page with an event opened and its queued callback run holds the event's draft and comments, with the skip flag down, no timer and no writes. |
| AdminReviewPage.TypeIntoFirst | src/pages/admin/review/page.tsx:184-196 | Typing a sequence of values into the first record's `prediction` leaves the last value in the draft and the timer as the effect sets it. |
| AdminReviewPage.EditsCoalesce | src/pages/admin/review/page.tsx:339-362 | After an event is opened and settled, any number of text edits to the first record's `prediction`, followed by one successful firing of the timer, issue exactly one write, and it carries the last value. |
| AdminReviewPage.ReselectCancelsPendingSave | src/pages/admin/review/page.tsx:364-368 | A re-fetch that re-selects the open event cancels its pending auto-save, so no write follows. |
| Api.ApiBaseUrl | src/lib/api.ts:4-17 | `VITE_API_URL` when set. Otherwise the production backend exactly when the hostname contains `useguidr.com`, else `http://localhost:3001`. |
| Api.SubdomainSelectsProduction | src/lib/api.ts:11-13 | A `useguidr.com` subdomain selects production; an empty `VITE_API_URL` on `localhost` selects the local backend. |
| Api.IsAdminEndpoint | src/lib/api.ts:51 | No contract of its own; `Api.PreparedHeaders` states that the token is attached only on such endpoints. |
| Api.AttachesAdminToken | src/lib/api.ts:45-53 | No contract of its own; `Api.PreparedHeaders` states that `Authorization` is added exactly when it holds, and `Api.HistoryRequestHeaders` states that the history call never uses it. |
| Api.PreparedHeaders | src/lib/api.ts:39-55 | Caller headers are never replaced. `Content-Type: application/json` is added exactly when there is a body and none was given. `Bearer <adminToken>` is added exactly when a token is stored, no `Authorization` was given and the endpoint starts with `/admin` or `/auth/admin`. Nothing else is added. |
| Api.PrepareHeaders | src/lib/api.ts:39-55 | The step-by-step `headers.set` sequence builds exactly `PreparedHeaders`. |
| Api.ErrorMessageOf | src/lib/api.ts:62-74 | The body's `message` if truthy, else its `error` if truthy, else `API Error: <status> <statusText>`. An unreadable or null body gives the status line. The message is never empty. |
| Api.ErrorMessage | src/lib/api.ts:62-74 | The reassigned `errorMessage` ends as `ErrorMessageOf` and is truthy. |
| Api.ThrownError | src/lib/api.ts:76-78 | The thrown error's `response.data.error` is its message. |
| Api.Unwrap | src/lib/api.ts:83-88 | `result.data` when not undefined, else `result`. A null or undefined result throws a `TypeError`. |
| Api.UnwrapEnvelope | src/lib/api.ts:83-88 | Unwrapping `{ data: v }` gives `v`, `null` included; a value without `data` passes through. |
| Api.ResponseOutcome | src/lib/api.ts:62-88 | A non-OK response throws an HTTP error whose message is `ErrorMessageOf` of the status, status text and body, so always truthy. An OK response with an unreadable body throws. Otherwise the result is the unwrapped body. |
| Api.Request | src/lib/api.ts:33-89 | The URL is `baseUrl + endpoint`, the headers are `PreparedHeaders` and the outcome is `ResponseOutcome`. |
| Api.HistoryHeaders | src/lib/api.ts:369-373 | The only header is `Authorization: Bearer <token>`, present iff a token is given. |
| Api.HistoryRequestHeaders | src/lib/api.ts:369-377 | The history request carries the user's token and never the admin token. |
| Api.UserHistory | src/lib/api.ts:367-396 | It never throws. An error gives `[]`, `success: false` and the error. `success` is false only then or when the server said so. The first shape present wins, in the order a bare array, `.history`, `.data.history`, `.data`, and otherwise `[]`. `success` is `true` except on the `.history` shape, where it is the server's `success ?? true`. |
| Api.HistoryShapesAgree | src/lib/api.ts:379-390 | A bare array, `{history}`, `{data: {history}}` and `{data}` holding the same list all give that list with success. |
| Api.HistoryThroughRequest | src/lib/api.ts:83-88 | A server envelope `{ data: [...] }` reaches `getUserHistory` as the bare list. |
| Api.TransactionsUrl | src/lib/api.ts:163-164 | The URL is `/transactions`, with `?filter=<filter>` iff a non-empty filter is given; the filter reads back from the URL. |
| Api.TopStakersUrl | src/lib/api.ts:326-327 | An admin endpoint whose `limit` query reads back as the limit, 10 by default. The digits are canonical: no leading zero unless the limit is `0`. |
| Api.AdminHistoryUrl | src/lib/api.ts:361-362 | An admin endpoint whose `limit` query reads back as the limit, 50 by default. The digits are canonical: no leading zero unless the limit is `0`. |
| Api.LimitUrlsInjective | src/lib/api.ts:326-327 | Different limits give different top-stakers URLs. |
| Dashboard.ActiveStakes | src/pages/dashboard/page.tsx:166 | No contract of its own; `Dashboard.ActiveStakesSpec` states it. |
| Dashboard.SumOf | src/pages/dashboard/page.tsx:167-168 | No contract of its own; `Dashboard.SumOfActiveIsActiveSum` states it over the active stakes. |
| Dashboard.TotalStaked | src/pages/dashboard/page.tsx:167 | No contract of its own; `Dashboard.TotalsAreSums` states it. |
| Dashboard.TotalProfit | src/pages/dashboard/page.tsx:168 | No contract of its own; `Dashboard.TotalsAreSums` states it. |
| Dashboard.ActiveStakesSpec | src/pages/dashboard/page.tsx:166 | Exactly the stakes whose status is `ACTIVE`, with their multiplicities, in order. |
| Dashboard.Amount | src/pages/dashboard/page.tsx:167 | A falsy amount adds 0; a truthy number adds itself. |
| Dashboard.SumOfActiveIsActiveSum | src/pages/dashboard/page.tsx:166-168 | With finite amounts, the reduce over active stakes equals the sum over all stakes in which inactive ones add 0. |
| Dashboard.TotalsAreSums | src/pages/dashboard/page.tsx:167-168 | `totalStaked` is the sum of active current amounts. `totalProfit` is that minus the sum of active initial amounts. |
| Dashboard.ProfitPercent | src/pages/dashboard/page.tsx:240 | 0 unless the staked total is positive; otherwise `profit / staked * 100`. |
| Dashboard.ProfitPercentAtMostHundred | src/pages/dashboard/page.tsx:240 | With non-negative initial amounts the percentage is finite and at most 100. |
| Dashboard.DashTotalOdds | src/pages/dashboard/page.tsx:170-180 | No contract of its own; `Dashboard.DashTotalOddsIsFold` and `Dashboard.DashTotalOddsAgrees` state it. |
| Dashboard.DashTotalOddsIsFold | src/pages/dashboard/page.tsx:170-180 | The dashboard's product is the generic left fold of `*` from 1 over the entries' factors. |
| Dashboard.DashTotalOddsAgrees | src/pages/dashboard/page.tsx:170-180 | The dashboard's product equals the review page's `TotalOdds` over the entries read as records. |
| Dashboard.NonObjectEntryNeutral | src/pages/dashboard/page.tsx:172-177 | A null or non-object entry contributes factor 1. |
| Dashboard.HeadlineMatches | src/pages/dashboard/page.tsx:327-330 | `adminPredictions` if a non-empty array, else `matches`, else empty. |
| Dashboard.HeadlineOdds | src/pages/dashboard/page.tsx:327-335 | The product of a non-empty headline list. Otherwise a truthy numeric `totalOdds`, else 1.05. It fails exactly where a truthy non-number `totalOdds` would be formatted. |
| Dashboard.NoEventHeadline | src/pages/dashboard/page.tsx:327-335 | With no daily event the headline odds are 1.05. |
| Dashboard.StakesFrom | src/pages/dashboard/page.tsx:109-111 | The response if it is an array, else its truthy `stakes`, else `[]`. |
| Dashboard.DailyEventFrom | src/pages/dashboard/page.tsx:106 | Its `dailyEvent` when that is truthy, and null exactly when it is not. |
| Dashboard.BalanceFrom | src/pages/dashboard/page.tsx:118-142 | The balance is read only for a user object with an `id`. Each field is the payload's value when that is truthy and 0 when it is not. All are 0 when there is no user or the request failed. |
| Dashboard.FetchData | src/pages/dashboard/page.tsx:83-148 | Nothing happens without a token. A failed profile, stakes or events request gives null, `[]` or null respectively. A successful one gives the profile itself, `StakesFrom` of the stakes payload and `DailyEventFrom` of the events payload. The balance follows `BalanceFrom`. |

## Left out

- Rendering: JSX, styling, `toFixed`/`toLocaleString` display strings, `alert` and `console`. These are presentation only.
- Binary floating point: numbers are exact reals with NaN and the infinities, so no rounding error or `-0` is modelled. `Round4` is exact half-away-from-zero rounding.
- JSON serialisation of the write payloads, where NaN becomes null. Payloads are recorded as values.
- `generateDailyPicks`, the result-update handler, `src/contexts/AuthContext.tsx`, `src/App.tsx` and the other admin and history pages. They are network orchestration, authentication timeouts or display mappings outside this model.
- React scheduling. State updates are taken as synchronous, each handler runs to completion, and handlers do not interleave with the `await`s inside `fetchEvents` and `saveReview`. The stale closure over `selectedEvent` in `fetchEvents` is not modelled; the current selection is used.
- The `loading`, `saving`, `generating` and `updatingResult` flags and the `finally` blocks that reset them are not modelled. They only gate buttons.
- `AdminReviewPage.ReviewPage.UpdateMatchPrediction`: requires an index inside the draft. The page only passes indices of rendered records; a JavaScript write past the end, which would leave holes, is not modelled.
- `AdminReview.NormalizePredictions`: drafts hold records, never `null`. The source's `match &&` guard is therefore not exercised.
- `Api.ErrorMessage`: the result is the raw value handed to `new Error`. The string conversion `new Error` applies to a non-string message (an array of validation messages, say) is not modelled.
- `Api.PreparedHeaders`: header names are taken as already lower-case. Case-insensitive normalisation by `Headers` is not modelled.
- `Api.UserHistory`: a caught error is kept as the error value itself; its engine-specific message text is not modelled.
- `Api.TopStakersUrl`: limits are natural numbers, and the formatting of other numbers in a template literal is not modelled. The same goes for `Api.AdminHistoryUrl`.
- `Dashboard.Amount`: a truthy amount that is not a number is taken as NaN. JavaScript would concatenate strings or coerce booleans.
- `Dashboard.HeadlineMatches`: a non-array `adminPredictions` or `matches` is taken as empty. A non-empty string there would make the page throw.
- `Dashboard.IsActive`: a `null` stake reads as inactive; the page would throw on it.
- The network, timers, `sessionStorage`, `window.location` and `import.meta.env`. They are parameters of the functions and methods that read them.
