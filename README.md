# Batch calling and call reporting: a Dafny model

This project models the logic at the centre of a voice-agent dashboard. Clients upload contact lists as CSV files. A server function starts a campaign by creating one job per contact and asking the voice provider to call each contact, in batches of five. A webhook receives the provider's end-of-call reports, normalises them and files each under the owning client. The dashboard then filters, tallies and renders those reports.

The model covers the following parts of the system:

- **Campaign start** (`start_campaign.dfy`).
  - A class holds the campaign, assistant, phone-number and job tables.
  - The handler runs the lookup guards and turns each CSV row into a pending job.
  - The batch loop keeps the success and failure counters and settles each job.
  - The final campaign update is part of the handler.
- **End-of-call webhook** (`call_reports_webhook.dfy`).
  - The method and event-type gate comes first.
  - Fields are extracted through JavaScript `||` chains, each of which yields the first truthy value.
  - Call direction, cost and sentiment are derived from the message.
  - The owning client is resolved by a cascade: assistant, then phone number, then the default client.
  - A table class receives the single insert.
- **Contact-list parsing**.
  - `batch_calling_service.dfy` models the permissive service parser and the phone-alias chain used when a campaign is created.
  - `batch_calling_upload.dfy` models the strict parser run on upload and the submit guards.
  - `csv_rows.dfy` models the row-building loop the two parsers share.
- **Report helpers** (`call_reports_service.dfy`).
  - The end-reason to display-status map and the colour map.
  - The duration-based cost.
  - The post-query part of the report fetch.
  - The folds for the dashboard metrics, the outcome chart and the pickup rate.
- **Dashboard filtering** (`call_filters.dfy`, `calls_table.dfy`).
  - The filter object and its `'all'`→`''` rewrite.
  - Edits to the structured-data filter.
  - Discovery of structured-data fields and their options.
  - The table's client-side filter, its column choice and its value and field-name rendering.
- **Assistant list de-duplication** (`assistant_dedup.dfy`): the `Map` keyed by `assistant_id`.

`json.dfy` and `js_string.dfy` give the JavaScript semantics these need.

- JSON values include `undefined`, with JavaScript truthiness.
- `||` and optional chaining are modelled.
- `Object.entries` is modelled, and `===` compares arrays and objects by reference.
- The string helpers model `trim`, `split`, `includes` and ASCII case mapping.

Database reads are maps. The database's and the provider's answers are parameters: whether an insert fails, the provider's reply to row `k`, the configured API key. Numbers are exact reals: the model does not fix a floating-point format.

Where the written description and the code disagree, the model follows the code. For example, a lone `false` success evaluation does not yield `negative`. The `||` in `supabase/functions/call-reports/index.ts:73` replaces it by the next candidate, so the sentiment is `neutral`. See `CallReportsWebhook.SentimentSkipsFalsy`.

## Model

| member | source | states |
|---|---|---|
| StartCampaign.PhoneOf | supabase/functions/start-campaign/index.ts:89-92 | definition, used by `StartCampaign.NewJobsSpec`: a job's number is the row's `phone_number`, `undefined` when the row has none |
| StartCampaign.VariablesOf | supabase/functions/start-campaign/index.ts:89-93 | the variables are the row without `phone_number`, every other key and value kept; putting the phone back rebuilds the row |
| StartCampaign.NewJobs | supabase/functions/start-campaign/index.ts:88-96 | exactly one job per row, in row order |
| StartCampaign.NewJobsSpec | supabase/functions/start-campaign/index.ts:88-96 | each job belongs to the campaign, is `pending`, has no call id, and carries its row's phone and variables |
| StartCampaign.Settled | supabase/functions/start-campaign/index.ts:153-184 | an accepted request makes the job `calling`, with the provider's id when the body has one and the stored id kept when it has none; a rejected one makes it `failed`; a thrown one leaves it unchanged; the campaign, phone and variables never change |
| StartCampaign.Settle | supabase/functions/start-campaign/index.ts:157-164 | the status update touches exactly the jobs with the campaign id and the row's phone, and settles each of them |
| StartCampaign.Dispatch | supabase/functions/start-campaign/index.ts:126-187 | dispatching never adds or removes jobs |
| StartCampaign.DispatchLeavesOthers | supabase/functions/start-campaign/index.ts:163-164 | jobs of other campaigns, or with a phone no row has, are untouched by the whole run |
| StartCampaign.DispatchOwnRow | supabase/functions/start-campaign/index.ts:153-184 | a job whose phone occurs in one row only is settled by that row's reply once the row has been sent, and is unchanged before |
| StartCampaign.JobOutcome | supabase/functions/start-campaign/index.ts:88-184 | after the run, a freshly inserted job with a unique string phone is `calling` iff its request was accepted, `failed` iff it was rejected, and `pending` iff the request threw; its call id is the provider's id when the ok body has one and `null` otherwise |
| StartCampaign.CountAccepted | supabase/functions/start-campaign/index.ts:166 | the success count never exceeds the rows sent |
| StartCampaign.CountAcceptedExtremes | supabase/functions/start-campaign/index.ts:166-183 | the success count is 0 iff no request was accepted, and equals the rows sent iff every one was |
| StartCampaign.BatchesPartition | supabase/functions/start-campaign/index.ts:122-127 | the batches concatenate back to the rows, each holds 1 to 5 rows, and there are ⌈n/5⌉ of them |
| StartCampaign.BatchesIndex | supabase/functions/start-campaign/index.ts:126-127 | batch `j` is exactly rows `5j` up to `min(5j+5, n)` |
| StartCampaign.BatchesStep | supabase/functions/start-campaign/index.ts:126-127 | one loop step takes rows `i` up to `min(i+5, n)` and leaves the batches from there on |
| StartCampaign.StatusCode | supabase/functions/start-campaign/index.ts:43-119 | 404 exactly for a missing row, 500 exactly for a server fault |
| StartCampaign.CampaignDb.Lookup | supabase/functions/start-campaign/index.ts:37-79 | the lookups succeed iff the campaign, its assistant and its phone number all exist; a missing campaign is reported first |
| StartCampaign.CampaignDb.Start | supabase/functions/start-campaign/index.ts:10-203 | OPTIONS answers the preflight and any method but POST is refused with 405, both without a write or a call; a POST has exactly the outcome stated for `Post` |
| StartCampaign.CampaignDb.Post | supabase/functions/start-campaign/index.ts:30-203 | a failed lookup answers 404 before any write or call; an insert error or a missing key answers 500 after the status is already `running` (and, for the key, the jobs inserted) with no call made; otherwise the jobs are settled by their replies, the counters are written and the status is `running` iff some call succeeded, else `failed` |
| StartCampaign.StartedOutcome | supabase/functions/start-campaign/index.ts:81-203 | the counter update overwrites the `running` status written before the insert, so the campaign ends as if only the final update had been made |
| StartCampaign.CampaignDb.Dispatched | supabase/functions/start-campaign/index.ts:121-203 | after the batch loop the campaign's counters are the success and failure counts, its status follows the success count, and the jobs are settled by the replies |
| StartCampaign.CampaignDb.DispatchAll | supabase/functions/start-campaign/index.ts:121-193 | the loop sends the rows in batches of five, counts every row exactly once (`success + fail == n`, `success` = accepted replies), settles the job table, and pauses between batches only: ⌈n/5⌉−1 pauses |
| StartCampaign.CampaignDb.SendBatch | supabase/functions/start-campaign/index.ts:127-187 | each row of one batch adds one to exactly one counter and settles its jobs |
| StartCampaign.StartOutcome | supabase/functions/start-campaign/index.ts:121-203 | the finished campaign row is `failed` exactly when no request was accepted, `running` exactly when one was, never `completed`, and its counters add up to the rows sent |
| CallReportsWebhook.MessageOf | supabase/functions/call-reports/index.ts:32-33 | reading `message` fails (answered as an invalid request) iff the body is missing, `null` or `undefined` |
| CallReportsWebhook.ExtractedFields | supabase/functions/call-reports/index.ts:51-66 | every field is the operand of its own `||` chain at the first truthy position (the last operand when none is truthy), so falsy earlier values are skipped and each field falls back to its fixed default; the call id is `call.id`; agent, status and structured data are never falsy; the agent is the message's assistant name, else the call's, else `Unknown Agent`; the status is the message's `endedReason`, else the call's, else `'unknown'`; duration defaults to 0, structured data to `{}` |
| CallReportsWebhook.AgentStatusData | supabase/functions/call-reports/index.ts:52-64 | the agent name, status and structured data are always truthy; the agent is the message's assistant name, else the call's, else `Unknown Agent`; the status is the message's `endedReason`, else the call's, else `'unknown'`; structured data defaults to `{}`; each is its chain's first truthy operand |
| CallReportsWebhook.DurationField | supabase/functions/call-reports/index.ts:57 | the duration is its chain's first truthy operand: truthy or 0, and 0 when neither the message nor the call has a truthy one |
| CallReportsWebhook.TextFields | supabase/functions/call-reports/index.ts:53-63 | the numbers, summary, transcript and recording URL are each their chain's first truthy operand, so truthy or `''` |
| CallReportsWebhook.CallTypeAfterGate | supabase/functions/call-reports/index.ts:40-55 | once the event type is `end-of-call-report`, the call is outbound iff `call.type` is `outboundPhoneCall` |
| CallReportsWebhook.DefaultCost | supabase/functions/call-reports/index.ts:69 | definition, used by `CallReportsWebhook.CostSpec`: a numeric duration costs `d·60·0.011`, as JavaScript arithmetic coerces it |
| CallReportsWebhook.CostSpec | supabase/functions/call-reports/index.ts:57-69 | a truthy reported cost is kept as is; otherwise the cost is 0.66 per minute of the extracted duration, and 0 without a duration |
| CallReportsWebhook.Classify | supabase/functions/call-reports/index.ts:72-86 | `true`, `'true'` and `'pass'` give positive; `false`, `'false'` and `'fail'` give negative; a number ≥ 7 gives positive and ≤ 4 gives negative; exactly the other values give neutral |
| CallReportsWebhook.SentimentSkipsFalsy | supabase/functions/call-reports/index.ts:73-86 | a falsy first evaluation is replaced by the call's own, so a lone `false` gives neutral, not negative |
| CallReportsWebhook.Adopt | supabase/functions/call-reports/index.ts:102-125 | definition, used by `CallReportsWebhook.ResolveClientSpec`: a found row replaces the client id; an error or a missing row leaves it |
| CallReportsWebhook.ResolveClientSpec | supabase/functions/call-reports/index.ts:89-139 | a truthy assistant client wins and nothing else is queried; the phone table is queried iff the assistant step gave nothing and a phone id exists; the default client is queried iff both steps gave nothing truthy, and then it (or `null`) is the result; the result is a truthy id or `null` |
| CallReportsWebhook.LookupErrorsLikeMissingRows | supabase/functions/call-reports/index.ts:102-125 | lookup errors resolve the same client as empty tables |
| CallReportsWebhook.Normalize | supabase/functions/call-reports/index.ts:32-139 | the request is refused as malformed iff the message cannot be read, and as the wrong event iff it is present but not an end-of-call report |
| CallReportsWebhook.StatusCode | supabase/functions/call-reports/index.ts:12-198 | 400 exactly for a refused event, 200 exactly for preflight and stored reports |
| CallReportsWebhook.CallReportTable.Receive | supabase/functions/call-reports/index.ts:10-198 | OPTIONS and other methods insert nothing; a refused event inserts nothing; an accepted event inserts exactly one record, or none when the insert fails |
| CallReportsWebhook.Redeliver | supabase/functions/call-reports/index.ts:142-161 | delivering the same report twice stores it twice: there is no de-duplication on the call id |
| CsvRows.Cell | src/services/batchCallingService.ts:114 | definition, used by `CsvRows.RowOfSpec`: a missing cell reads as `''` |
| CsvRows.RowOfKeys | src/services/batchCallingService.ts:111-116 | a row has a key exactly for each header |
| CsvRows.RowOfValues | src/services/batchCallingService.ts:111-116 | a header whose last column is `i` holds cell `i` |
| CsvRows.RowOfSpec | src/services/batchCallingService.ts:111-116 | a row has exactly the header keys, and each header holds the cell of its last column |
| CsvRows.BuildRow | src/components/campaigns/BatchCalling.tsx:95-100 | the `forEach` fills the fresh row to exactly the row the headers and cells define |
| BatchCallingService.CleanCell | src/services/batchCallingService.ts:95 | a cleaned header or cell contains no `"` |
| BatchCallingService.DataRows | src/services/batchCallingService.ts:109-118 | definition, used by `BatchCallingService.ParseCsvOutcome`: one row per line after the header, blank lines included |
| BatchCallingService.AliasesMentionPhone | src/services/batchCallingService.ts:98 | every alias contains `phone` once lower-cased |
| BatchCallingService.HasPhoneColumnIffMentionsPhone | src/services/batchCallingService.ts:98-107 | the alias check accepts a header iff it contains `phone`, case-insensitively |
| BatchCallingService.ParseCsvOutcome | src/services/batchCallingService.ts:89-107 | fewer than two lines after trimming is refused; otherwise refused iff no header mentions `phone`; the result has one row per line after the header |
| BatchCallingService.ParseCsvRows | src/services/batchCallingService.ts:109-118 | every row has exactly the header keys, and no key or value contains `"` |
| BatchCallingService.CleanRow | src/services/batchCallingService.ts:110-115 | rows built from cleaned headers and cells hold no `"` |
| BatchCallingService.PhoneOfSpec | src/services/batchCallingService.ts:56 | a job's phone is the value of the first alias present with a non-empty value; when there is none it is the row's `phoneNumber` value, which is `''` when that column exists and `undefined` otherwise |
| BatchCallingService.AcceptedHeaderYieldsNoPhone | src/services/batchCallingService.ts:56-107 | a header such as `mobile_phone` passes the parser's check yet gives the job no phone |
| BatchCallingService.CreateCampaignSpec | src/services/batchCallingService.ts:22-69 | the campaign is `pending` with `total_numbers` = number of rows; a failed campaign insert writes no jobs and reports the campaign error; a failed job insert reports the job error; success returns the new campaign's id; after a successful insert there is one pending job per row, in order, with the phone number picked from that row and the whole row kept as variables |
| BatchCallingUpload.NonBlank | src/components/campaigns/BatchCalling.tsx:94 | the kept lines are lines of the input that are not whitespace-only |
| BatchCallingUpload.Kept | src/components/campaigns/BatchCalling.tsx:94 | `Array.prototype.filter`: what it keeps comes from the input and is accepted by the predicate |
| BatchCallingUpload.KeptCount | src/components/campaigns/BatchCalling.tsx:94 | the filter keeps as many elements as the predicate accepts |
| BatchCallingUpload.KeptPositions | src/components/campaigns/BatchCalling.tsx:94 | every accepted element is kept, in order: element `i` sits at the number of accepted elements before it |
| BatchCallingUpload.NonBlankCount | src/components/campaigns/BatchCalling.tsx:94 | the filter keeps exactly the non-blank lines |
| BatchCallingUpload.NonBlankPositions | src/components/campaigns/BatchCalling.tsx:94 | every non-blank line is kept, in order, at the number of non-blank lines before it |
| BatchCallingUpload.ParseUploadLines | src/components/campaigns/BatchCalling.tsx:94-101 | the non-blank data line `j` gives row number "non-blank data lines before `j`", built from the header and that line's trimmed cells |
| BatchCallingUpload.UploadRows | src/components/campaigns/BatchCalling.tsx:95-100 | definition, used by `BatchCallingUpload.ParseUploadRows`: one row per kept line, built from its trimmed cells |
| BatchCallingUpload.ParseUploadSpec | src/components/campaigns/BatchCalling.tsx:76-110 | anything but a `text/csv` file is refused; a CSV file is refused iff no trimmed header is exactly `phone_number`; otherwise there is one row per non-blank data line, in order, each built from the header and that line's trimmed cells, each with the header keys, `phone_number` among them, and only trimmed values |
| BatchCallingUpload.ParseUploadCount | src/components/campaigns/BatchCalling.tsx:94-101 | an accepted file gives exactly one row per non-blank data line |
| BatchCallingUpload.ParseUploadRows | src/components/campaigns/BatchCalling.tsx:84-101 | every row of an accepted file has exactly the trimmed header keys, `phone_number` among them, and only trimmed values |
| BatchCallingUpload.TrimCellsTrimmed | src/components/campaigns/BatchCalling.tsx:96 | every trimmed cell has no leading or trailing whitespace |
| BatchCallingUpload.TrimmedRow | src/components/campaigns/BatchCalling.tsx:95-100 | rows built from trimmed cells hold only trimmed values |
| BatchCallingUpload.SubmitSpec | src/components/campaigns/BatchCalling.tsx:121-142 | submitting succeeds iff the upload gave at least one row and a client id is known, and then `total_numbers` is the number of non-blank data lines |
| CallReportsService.StatusDisplay | src/services/callReportsService.ts:41-57 | each end reason maps to its label, in both directions; voicemail splits on the flag; everything else is `Failed`; the result is always one of the six labels |
| CallReportsService.StatusDisplayOnto | src/services/callReportsService.ts:41-57 | every one of the six labels is produced by some end reason |
| CallReportsService.StatusColor | src/services/callReportsService.ts:60-76 | the colour is one of five classes, `text-destructive` for any unknown label |
| CallReportsService.StatusColorSeparates | src/services/callReportsService.ts:60-76 | two different labels share a colour only for `No Answer` and `Failed` |
| CallReportsService.CallCostSpec | src/services/callReportsService.ts:79-82 | cost is 0.66 per minute: 0 at 0, monotone and additive |
| CallReportsService.Recost | src/services/callReportsService.ts:168-173 | every returned report carries the cost recomputed from its duration |
| CallReportsService.TruthyOnly | src/services/callReportsService.ts:98-99 | the kept call ids are exactly the truthy ones, and none are left iff all are falsy |
| CallReportsService.FetchCallReportsSpec | src/services/callReportsService.ts:84-173 | a campaign filter with no usable call ids returns `[]`; the fetch throws iff the main query fails; whenever the main query succeeds and the filter did not stop early, there is one report per queried call, each the queried one with its cost recomputed |
| CallReportsService.DashboardMetrics | src/services/callReportsService.ts:193-207 | `totalCalls` is the list length, the totals are the sums of the reports' minutes and costs, the average times the count is the total cost, and everything is 0 for no calls |
| CallReportsService.TotalCostOfRecosted | src/services/callReportsService.ts:168-198 | for recomputed reports the total cost is the cost of the total minutes |
| CallReportsService.DistinctHasNoDuplicates | src/services/callReportsService.ts:238-249 | the chart lists each label once |
| CallReportsService.BumpSpec | src/services/callReportsService.ts:240 | one report adds one to its label's count, appending the label when new |
| CallReportsService.TallySpec | src/services/callReportsService.ts:238-242 | the tally lists the distinct labels in first-seen order, each with its number of occurrences, summing to the number of reports |
| CallReportsService.TallyNames | src/services/callReportsService.ts:238-242 | the tallied labels are the distinct labels in first-seen order, none twice |
| CallReportsService.TallySum | src/services/callReportsService.ts:238-242 | the tallied counts add up to the number of reports |
| CallReportsService.TallyCounts | src/services/callReportsService.ts:238-242 | each tallied label carries its number of occurrences |
| CallReportsService.Percent | src/services/callReportsService.ts:251 | a share is 0 for no calls and lies between 0 and 100 |
| CallReportsService.DefaultOutcomes | src/services/callReportsService.ts:247-263 | definition, used by `CallReportsService.CallOutcomesShape`: the empty chart lists the six labels with count and value 0 and their colours |
| CallReportsService.OutcomeCountsOfTally | src/services/callReportsService.ts:249-254 | the chart's counts add up to the tally's |
| CallReportsService.CallOutcomesShape | src/services/callReportsService.ts:235-267 | no reports give the six default entries; otherwise one entry per tallied label |
| CallReportsService.CallOutcomesCounts | src/services/callReportsService.ts:238-254 | the outcome counts sum to the number of reports, each being its label's occurrences |
| CallReportsService.CallOutcomesNames | src/services/callReportsService.ts:238-254 | an entry exists exactly for each label some report has, and no label twice |
| CallReportsService.AnsweredCount | src/services/callReportsService.ts:275-278 | answered calls never exceed the calls |
| CallReportsService.AnsweredCountSpec | src/services/callReportsService.ts:275-278 | no call is answered iff none shows `Completed` or `Left Voicemail` |
| CallReportsService.PickupRate | src/services/callReportsService.ts:270-288 | `totalCalls` is the list length and `answeredCalls` the answered count; `missed = total − answered`; the rate lies between 0 and 100, is 0 when nothing was answered and 100 when everything was |
| CallReportsService.AnsweredCountOccurrences | src/services/callReportsService.ts:275-278 | the answered calls are exactly the reports displayed as `Completed` plus those displayed as `Left Voicemail` |
| CallReportsService.PickupRateStep | src/services/callReportsService.ts:270-288 | one more answered call never lowers the rate and one more missed call never raises it |
| CallFilters.ClearedFilters | src/components/dashboard/CallFilters.tsx:137-148 | clearing restores exactly the initial filter state of lines 25-36 |
| CallFilters.ToApiFilters | src/components/dashboard/CallFilters.tsx:125-130 | the key loop replaces exactly the values that are `'all'` by `''` and keeps every other key and value |
| CallFilters.ApiFiltersSpec | src/components/dashboard/CallFilters.tsx:125-130 | no value is `'all'` afterwards, and rewriting again changes nothing |
| CallFilters.ClearedApiFilters | src/components/dashboard/CallFilters.tsx:136-160 | clearing hands on the initial state with its five `'all'` selectors blanked |
| CallFilters.UpdateStructuredData | src/components/dashboard/CallFilters.tsx:173-181 | a non-empty value other than `'all'` is set, any other value deletes the key, and every other key and top-level filter is untouched |
| CallFilters.UpdateStructuredDataLastWins | src/components/dashboard/CallFilters.tsx:173-181 | editing a field twice is the same as editing it once with the later value |
| CallFilters.RelevantCalls | src/components/dashboard/CallFilters.tsx:77-79 | only calls of the selected agent are considered, all calls for an empty or `'all'` agent |
| CallFilters.AddValue | src/components/dashboard/CallFilters.tsx:88-90 | a value is appended or ignored, never anything else |
| CallFilters.AddCall | src/components/dashboard/CallFilters.tsx:84-90 | every key of the call is present afterwards, and its value is offered to that key's set |
| CallFilters.FieldValuesKeys | src/components/dashboard/CallFilters.tsx:82-93 | a field is discovered iff some considered call has it, even when all its values are empty |
| CallFilters.FieldValuesSound | src/components/dashboard/CallFilters.tsx:88-90 | every collected value was seen under its field and is not `null`, `undefined` or `''` |
| CallFilters.FieldValuesComplete | src/components/dashboard/CallFilters.tsx:82-93 | every non-empty value seen under a field is in its set |
| CallFilters.FieldValuesNoRepeat | src/components/dashboard/CallFilters.tsx:89 | no primitive value is collected twice |
| CallFilters.KindOf | src/components/dashboard/CallFilters.tsx:97-105 | a field offers its values as options iff it has 2 to 20 of them, and is free text otherwise |
| CallFilters.ExtractStructuredDataFields | src/components/dashboard/CallFilters.tsx:73-109 | the result has exactly the discovered fields, each classified by its collected values |
| CallFilters.WalkCalls | src/components/dashboard/CallFilters.tsx:82-93 | the outer loop builds the field map of all considered calls |
| CallFilters.AddEntries | src/components/dashboard/CallFilters.tsx:84-91 | the inner loop adds one call's entries to the field map |
| CallsTable.FilterCalls | src/components/dashboard/CallsTable.tsx:47-65 | filtering never makes the list longer |
| CallsTable.FilterCallsMembers | src/components/dashboard/CallsTable.tsx:47-65 | a call is kept iff it was loaded and passes every filter |
| CallsTable.KeptIndices | src/components/dashboard/CallsTable.tsx:48-64 | the kept positions are in range and increase strictly |
| CallsTable.KeptIndicesSpec | src/components/dashboard/CallsTable.tsx:48-64 | the kept positions are exactly the positions whose call passes |
| CallsTable.FilterCallsIndices | src/components/dashboard/CallsTable.tsx:47-65 | the result is the calls at the kept positions, in order: an order-preserving subsequence |
| CallsTable.FilterCallsIdempotent | src/components/dashboard/CallsTable.tsx:47-65 | filtering twice is filtering once |
| CallsTable.AllPass | src/components/dashboard/CallsTable.tsx:47-65 | when every call passes, nothing is removed |
| CallsTable.InitialFiltersPassAll | src/components/dashboard/CallsTable.tsx:49-61 | the initial filters, before or after the `'all'` rewrite, keep every call |
| CallsTable.InitialPasses | src/components/dashboard/CallsTable.tsx:49-61 | a single call passes the initial filters, before and after the `'all'` rewrite |
| CallsTable.VisibleFields | src/components/dashboard/CallsTable.tsx:68-71 | `filters.agent || 'all'` looked up in the agent table of lines 14-21, with the `'all'` list as fallback: a known agent gets its own columns; no agent or an unknown one gets the `'all'` list |
| CallsTable.ShownFields | src/components/dashboard/CallsTable.tsx:184 | definition, used by `CallsTable.ShownFieldsCount`: the table draws the first visible columns, at most three |
| CallsTable.ShownFieldsCount | src/components/dashboard/CallsTable.tsx:14-21 | every list has at least three columns, so exactly three are drawn |
| CallsTable.RenderValue | src/components/dashboard/CallsTable.tsx:112-117 | booleans render `Yes`/`No`; numbers, 0 included, render their decimal form; the text `N/A` appears iff the value is `null`, `undefined`, `''` or the string `N/A` itself |
| CallsTable.SpaceBeforeCapsSpec | src/components/dashboard/CallsTable.tsx:109 | one space is inserted before each capital, so every capital after the first character follows a space |
| CallsTable.FormatFieldNameSpec | src/components/dashboard/CallsTable.tsx:108-110 | a formatted name is one character longer per capital, has no `_`, has a space before every later capital and never starts lower-case |
| CallsTable.SpaceBeforeCapsKeeps | src/components/dashboard/CallsTable.tsx:109 | input character `i` lands at position `i` plus the number of capitals up to it, and a capital has the inserted space right before it |
| CallsTable.FormatFieldNameKeeps | src/components/dashboard/CallsTable.tsx:108-110 | every input character survives at its shifted position, the first one upper-cased and every `_` turned into a space, with a space before every capital |
| AssistantDedup.Set | src/components/master/AssistantManagement.tsx:171 | a repeated id keeps its place and takes the new row; a new id is appended |
| AssistantDedup.BuildKeys | src/components/master/AssistantManagement.tsx:171 | the map has a key for exactly the ids that occur |
| AssistantDedup.BuildValues | src/components/master/AssistantManagement.tsx:171 | under each key is the last row with that id |
| AssistantDedup.BuildOrder | src/components/master/AssistantManagement.tsx:171 | the keys are in order of first occurrence |
| AssistantDedup.UniqueAssistantsKeys | src/components/master/AssistantManagement.tsx:171 | entry `i` of the list has the map's `i`-th id and is the last row loaded with it |
| AssistantDedup.UniqueAssistantsCover | src/components/master/AssistantManagement.tsx:171 | every loaded row's id appears in the list |
| AssistantDedup.UniqueAssistantsSpec | src/components/master/AssistantManagement.tsx:171 | every id is shown exactly once, in order of first occurrence, as the last row loaded with it |
| AssistantDedup.UniqueAssistantsLength | src/components/master/AssistantManagement.tsx:171 | the list never grows, and keeps its length iff no id repeats |

## Left out

- Network and database I/O are replaced by parameters.
  - This covers the Supabase client calls, `fetch` to the provider, `serve`, the CORS header values and `req.json()`.
  - Lookups are maps. Insert failures, the API key and the provider's reply per row are inputs.
- StartCampaign.CampaignDb.Post: the 500 from the outer `catch` (`supabase/functions/start-campaign/index.ts:220-231`) for a body that is not JSON or has no `csvData` list (`csvData.length` at line 34 throws before any lookup), and for a `null` row (the destructuring at line 89 throws after the status was set to `running`, leaving the campaign `running` with no jobs), is not modelled: the rows are typed `seq<Row>`, so neither input can arise.
- The unchecked writes are assumed to succeed. These are the status update to `running`, the per-job updates and the final campaign update, whose errors the code ignores.
- Concurrency and timing are not modelled.
  - The five requests of a batch run concurrently. The model takes them one after another, in row order.
  - With two rows of one campaign sharing a phone in the same batch, the final job status could depend on completion order. The model fixes row order.
  - Pauses are counted rather than timed.
- Floating point is not modelled.
  - Costs, averages and percentages are exact reals.
  - `Math.round` is `⌊x + 0.5⌋`, which agrees with JavaScript for the non-negative values involved.
  - `toFixed` and `formatDuration` are not modelled.
- Locale and clock are left out. The charts bucketed by date (`getCallVolumeData`, `getCostAnalysisData`) need them.
- Object key order is not modelled. A JSON object is a map, so `Object.entries` and `Object.keys` order and the order of the discovered field map are not captured.
- Case mapping covers ASCII only. This affects `toLowerCase`, `toUpperCase` and the `/[A-Z]/` test in the parsers and in `formatFieldName`.
- Stringification is not modelled: numbers become `Decimal(n)` and arrays `Stringified(v)` rather than text.
- CallsTable.NumberPasses: a truthy `fromNumber`/`toNumber` filter that is not a string matches nothing. JavaScript would first convert it to a string.
- CallsTable.StructuredPasses: a truthy structured-data filter that is a string is treated as having no entries. JavaScript would list its characters.
- CallsTable.VisibleFields: a selected agent named like an inherited object property (`toString`, `constructor`) falls back to the `'all'` list. JavaScript would find the inherited member.
- CallReportsWebhook.DefaultCost: a numeric string or an array as the duration is treated as not a number (NaN → `null` in the record). JavaScript would coerce it.
- StartCampaign.Matches: a job with a non-string phone never matches a status update. The database's comparison of non-text values is not modelled.
- `JSON.parse` and the React state handling in `AssistantManagement.tsx` are not modelled.
- `hasUnappliedChanges` and the rest of the filter panel's UI state are not modelled.
- The outcome tally is kept as a list of label–count pairs in first-seen order, which mirrors `Object.entries` on the accumulator.
- The auth hooks, the admin CRUD wrappers, the generated schema types and the presentation-only screens are not part of this model.
