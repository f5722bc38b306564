# Verified model of the EDMS simulator's drain, formats and loops

A Dafny model of the parts of the EDMS simulator that carry state or an algorithm,
with proofs about every run, every input and every interleaving:

- **The catch-up drain** (`api/routes.py`). `Drain.dfy` has the background loop, proved
  against `Replay`, the effect of a sequence of build calls. `CatchUp.dfy` has the whole
  protocol as a step system: POST handlers behind a lock per replica, the shared slot, the
  spawned workers, the clock, crashes, forced restarts, trigger jobs, failing store accesses
  and the admin reset. `CatchUpStarts.dfy` proves who is let in, `CatchUpSafety.dfy` mutual
  exclusion for a disciplined deployment, `CatchUpNecessity.dfy` that it fails in every other
  one, `CatchUpRecords.dfy` what the slot holds in any deployment, `CatchUpLineage.dfy` which
  start and which workers a record goes back to, `CatchUpJobs.dfy` when the counters of a job
  never decrease, `CatchUpWorkers.dfy` that every worker of the protocol is a run of the loop,
  and `CatchUpTakeover.dfy` when a takeover stands.
- **The API-key cache** (`api/routes.py`, `api/admin.py`). `ApiKeys.dfy` is the step system
  of interleaved lookups and deactivations, `KeyService.dfy` the handlers run alone.
- **Formats**. `PdfFile.dfy`: the hand-written PDF emitter and a reader that follows its
  offsets. `CsvStream.dfy`: the chunked CSV export and an RFC 4180 parser.
- **Loops**. `WordWrap.dfy` (greedy wrapping, fewest lines), `Backtest.dfy` (the window
  sweep), `LoanEvents.dfy` (event batching), `Ledger.dfy` (running balance over pages),
  `Reports.dfy` (filter, sort, page), `SqlSplit.dfy` (statement splitter). `Text.dfy`,
  `Decimal.dfy`, `Groups.dfy` and `Wrappers.dfy` hold what they share.

What the proofs found, with the exact conditions:

- At most one drain is live in every reachable state if and only if the deployment has one
  replica, a reliable store, no `force`, no trigger jobs and no reset, and the age a live
  heartbeat may reach plus the time between a handler's read and its decision is at most
  60 seconds (`SingleDrainIff`). A 60-second heartbeat alone is not enough.
- After a takeover the new job keeps the slot if and only if every live worker of another job
  stands at its ownership check with builds left (`TakeoverStandsIff`). A worker that is past
  the check, or at it with its budget spent, writes its record over the slot.
- One drain's counters never decrease, but a job is not a drain. In the runs in which no two
  starts make the same job id, a job's counters never decrease if and only if the deployment is
  disciplined as above (`JobsGrowIff`); for a single such run of any deployment it is enough that
  every worker runs under the id of its own start (`OwnJobsGrow`). Ids are whole seconds, so in
  every deployment a second start within the second gives one id to two drains and the counts go
  back (`SameSecondGoesBack`).
- A drain's record counts, from a start's zero, the calls of the drains it passed through, each
  once and all under one job (`DrainRecordsNeverMix`). A trigger's record may mix two jobs: a
  drain takes over at once, and the trigger boots from the drain's record (`TriggerMixesJobs`).
  It counts its own job only, whatever its call returns, if and only if it booted from an
  uncounted record of its own job (`TriggerCountsOwnIff`), which where ids are distinct goes
  back to its own start (`OwnIdentityIff`).
- A deactivated and evicted key stays refused if and only if no lookup straddles the
  deactivation (`RevokedIff`, `EvictionRevokes`).
- Encompass documents all reach the disk if and only if no date has two hour groups
  (`BatchesSurviveIff`, `GroupsOfEvents`), and one document does if and only if its hour group is
  the last of its date to be opened (`DocumentSurvivesIff`): the batch key has the hour group,
  the file name has not. Under the first condition, and no other, the count returned for a run
  into an empty directory is the number of files in it.
- All pages of a `severity=critical` report give all critical rows if and only if none lies
  beyond the first `4 * page_size` rows (`CriticalPages`).
- A comment is removed without a trace if and only if it does not follow a dash directly
  (`SplitRoundTrip`).

Where code and comments disagree the model follows the code: `_CATCHUP_MAX_BUILD_ERRORS` counts
all failures, not consecutive ones; a drain stops on three idle signals, not on
`documents_new == 0`; batches are per date and hour group, not per date.

Assumptions that are part of the model: timestamps are integers (microseconds, or seconds for
the key cache); clocks do not go back; counts reported by a build are not negative; an absent
watermark and an empty one are the same; `csv.writer` is modelled as minimal quoting with CRLF
row ends, `list.sort` as a stable sort, `str.split` and `str.strip` on the white space of the
language. `run_build_job`, `trigger_job`, `take_daily_snapshot` and the answers of HTTP and
store accesses are arbitrary inputs.

## Model

| member | source | states |
|---|---|---|
| Drain.RunCatchUp | api/routes.py:745-870 | whatever the builds report: it goes on exactly as long as reports pull, create or move the watermark, builds are left and fewer than three failed; counts are the base plus the calls' own, the watermark and the days snapshot are the reports' own, the final record and its stop reason are faithful, and a displaced drain writes no final record |
| Drain.DrainBacklog | api/routes.py:754-854 | the loop makes calls only while it owns the slot, goes on after every report that found work, and stops at the budget, at a report that found none or at the third failure |
| Drain.RunOneBuild | api/routes.py:767-854 | one turn: a heartbeat before the build, the counts published after it, an error caught and counted |
| Drain.TakeReport | api/routes.py:783-843 | a report is counted, the day left behind is snapshot before publishing, the last day after an idle build |
| Drain.ReplayTotals | api/routes.py:783-799 | documents, pulls, applications, builds and errors are the sums over the calls, and job and status are kept |
| Drain.ReplayDates | api/routes.py:800-843 | the days attempted are the watermark dates without adjacent repeats, complete after an idle stop and without the last one otherwise |
| Drain.ReplaySnapshots | api/routes.py:803-811 | only successful attempts are counted, and the watermark is that of the last report |
| Drain.WatermarkIsLatest | api/routes.py:791-799 | the watermark is `watermark_to` of the last report, or `watermark_from` where that is empty |
| Drain.AttemptsAreDays | api/routes.py:800-843 | a day attempted is the part of a reported watermark before its first `T`, and after a report without work no such day is missing |
| Drain.EachDayOnce | api/routes.py:800-811 | dates that never go back, without adjacent repeats, are strictly increasing |
| Drain.AttemptsIncrease | api/routes.py:800-843 | if the reported days never go back, a drain attempts each day at most once, in increasing order, only reported days, and all of them after an idle stop |
| Drain.ReplayMonotone | api/routes.py:783-799 | no counter of a drain ever decreases from one call to a later one |
| Drain.PublicationsMonotone | api/routes.py:767-813 | nor does any counter in the sequence of records it publishes |
| Drain.PublicationsCount | api/routes.py:767-843 | around call i exactly two records are published: the heartbeat with the counts of the calls before, then the counts with that call |
| Drain.PublishesFirst | api/routes.py:800-843 | the record published after a report has its watermark and counts the snapshot of the day left behind, but not the one that follows an idle build |
| Drain.ReasonIsFaithful | api/routes.py:852-861 | too_many_errors exactly at three failures, max_builds_hit exactly when the budget is spent without them, no_new_work only after an idle build |
| CatchUpStarts.DecidesIff | api/routes.py:928-977 | a catch-up POST starts if and only if what it read was not running, had no heartbeat or one over 60 seconds old, or it is forced; a trigger if and only if it was not running; with the record each start writes |
| CatchUpStarts.StartsAreAllowed | api/routes.py:610-627 | in every run of any deployment each start in the log goes back to a handler whose own reading allowed it; a trigger's found the slot empty, unreadable or not running |
| CatchUpSafety.SingleDrain | api/routes.py:928-977 | disciplined: at most one drain is live, it owns a running slot with a fresh heartbeat, and every POST that decides is refused |
| CatchUpSafety.ReachableExclusive | api/routes.py:928-977 | the invariant behind it holds in every reachable state |
| CatchUpNecessity.SingleDrainIff | api/routes.py:632-640 | at most one live drain in all runs if and only if the deployment is disciplined |
| CatchUpNecessity.WithTwoReplicas | api/routes.py:635-640 | the lock is in-process, so two replicas can both start a drain |
| CatchUpNecessity.WithFailingReads | api/routes.py:646-649 | a failed read looks idle and starts a second drain |
| CatchUpNecessity.WithForce | api/routes.py:944-955 | a forced restart runs beside the drain it displaces |
| CatchUpNecessity.WithReset | api/admin.py:329-333 | emptying the store lets a second drain start |
| CatchUpNecessity.WithTriggers | api/routes.py:614-627 | a trigger record has no heartbeat, so a drain takes over at once, and the trigger's end lets a second one start |
| CatchUpNecessity.WithSlowBuilds | api/routes.py:941-943 | a heartbeat older than the threshold makes a live drain a zombie |
| CatchUpNecessity.WithSlowHandlers | api/routes.py:929-943 | so does a decision taken late on a reading that was fresh |
| CatchUpJobs.JobsGrowIff | api/routes.py:957-977 | in all runs without two starts of one id no job's counters decrease, if and only if the deployment is disciplined |
| CatchUpJobs.OwnJobsGrow | api/routes.py:750-751 | in any run in which ids are distinct and every worker runs under its own, no job's counters decrease |
| CatchUpJobs.OwnIdentityIff | api/routes.py:690-751 | where ids are distinct, a worker runs under its own id if and only if the record it booted from goes back to its own start |
| CatchUpJobs.JobCountersMayDecrease | api/routes.py:750-751 | after a forced restart in a later second two workers boot from one record, and the builds of the job go back |
| CatchUpJobs.SharedJobGoesBack | api/routes.py:750-751 | so it is whenever two started drains have not booted yet |
| CatchUpJobs.OvertakenGoesBack | api/routes.py:813-870 | and whenever a drain still building takes the slot back from a new job |
| CatchUpJobs.SameSecondGoesBack | api/routes.py:957-977 | in every deployment, two starts within one second share an id and the counts restart at zero |
| CatchUpJobs.TriggerMixesJobs | api/routes.py:690-728 | in every deployment with triggers, a trigger can write a drain's job with its own documents and the drain's pulls |
| CatchUpRecords.EveryRecordIsWhole | api/routes.py:643-664 | in any deployment the slot holds the last whole record written; a drain's counts what it booted with plus its own calls, a trigger's is what its call makes of what it booted with, and no writer's counters decrease |
| CatchUpRecords.StepAddsOne | api/routes.py:660-664 | a step writes at most one record, whole, of the worker that takes it, drain or trigger |
| CatchUpRecords.ReportWhole | api/routes.py:783-813 | the record published after a build counts that build |
| CatchUpRecords.OwnWorkOnly | api/routes.py:957-974 | disciplined: a published record is of its writer's own start and counts its writer's own calls and nothing else |
| CatchUpLineage.ReachableTraced | api/routes.py:750-751 | every identity is a record that stood in the slot when it was taken, written before by a worker that had booted or by a start |
| CatchUpLineage.DrainRecordsNeverMix | api/routes.py:643-664 | a record has the job of the start it goes back to and counts what each worker since then made of it, no worker twice; through drains only, it counts their calls from zero |
| CatchUpLineage.TriggerCountsOwnIff | api/routes.py:690-728 | a trigger's record says how its call ended and with what watermark, and counts its own job only if and only if the record it booted from was of that job and had counted nothing that it leaves alone |
| CatchUpWorkers.WorkersKeepBounds | api/routes.py:750-854 | under every interleaving a worker makes no more calls than the loop does, none after an idle build or the third failure, and none beyond its budget |
| CatchUpWorkers.WorkersWriteTheirLoop | api/routes.py:767-870 | with a reliable store, the records a worker wrote are in order those the loop publishes for its calls, followed at most by its final record, once it has a reason to end, or the heartbeat of a build lost in a crash |
| CatchUpWorkers.ReasonsAreFaithful | api/routes.py:848-861 | under every interleaving a drain begun from a start's record gives a stop reason only in its last record, completed, and says what ended it |
| CatchUpWorkers.ChecksIff | api/routes.py:754-765 | a worker builds on only if what it read holds its own job; it ends when its budget is spent, and leaves without a word otherwise, also when it could read nothing |
| CatchUpTakeover.TakeoverStandsIff | api/routes.py:755-765 | in every reachable state, a job keeps the slot short of a new start if and only if every live worker of another job stands at its check with builds left |
| CatchUpTakeover.Stands | api/routes.py:755-765 | such workers leave without writing |
| CatchUpTakeover.TakesBack | api/routes.py:813-870 | any other displaced worker can write its record over the slot |
| ApiKeys.CacheHitIsSourced | api/routes.py:175-216 | a key accepted from the cache was given the same tenant, name and scopes by its active row when it was read, stored no earlier and less than 300 seconds ago |
| ApiKeys.GetIff | api/routes.py:181-189 | the cache answers if and only if the key was stored less than 300 seconds ago and the access succeeds |
| ApiKeys.QueryIff | api/routes.py:191-203 | the table gives the tenant, name and scopes of an active row, read and write where it names none, and nothing otherwise |
| ApiKeys.AskIff | api/routes.py:245-254 | a static key is the default tenant with admin scope at once, any other is looked up |
| ApiKeys.AlwaysSourced | api/routes.py:191-215 | every grant in flight or cached was read from an active row |
| ApiKeys.RevokedIff | api/routes.py:175-216 | with an inactive row, later requests are all refused if and only if the cache does not answer and no lookup straddles |
| ApiKeys.StaysRevoked | api/routes.py:175-216 | under every interleaving a revoked key stays revoked |
| ApiKeys.EvictionRevokes | api/admin.py:247-260 | a deactivation with a successful eviction revokes the key if and only if no lookup straddles it |
| ApiKeys.StalenessBound | api/routes.py:207-213 | however the eviction went, a deactivated key is accepted from the cache only within 300 seconds plus the time a lookup takes to store |
| KeyService.KeyStore.LookupApiKey | api/routes.py:175-216 | the lookup alone takes exactly the steps of the protocol: the cached grant for 300 seconds, else the active row's tenant, name and scopes, which are then cached, else a refusal |
| KeyService.KeyStore.VerifyApiKey | api/routes.py:219-275 | static keys are the default tenant with admin scope, all others are looked up |
| KeyService.KeyStore.DeactivateApiKey | api/admin.py:247-265 | an unknown key is refused, a known one is made inactive and evicted if that succeeds |
| KeyService.KeyStore.DeactivateThenVerify | api/admin.py:251-257 | the very next request after a deactivation is refused |
| PdfFile.MakePdf | scripts/demo_loan.py:238-286 | the emitted file reads back as five objects that refer to each other from the root to the page's content and font; the content is the only stream, and shows the first 3000 characters of the title, an empty line and a line a field, what is not Latin-1 as question marks |
| PdfFile.TextCutsBack | scripts/demo_loan.py:243-250 | that text, cut at its line breaks, gives back the title and every name and value in order |
| PdfFile.PageShows | scripts/demo_loan.py:250-256 | the emitter's joined, encoded and truncated lines are that text in its frame |
| PdfFile.ReadsBack | scripts/demo_loan.py:269-286 | startxref, the table and the offsets lead to each object |
| PdfFile.ObjectStands | scripts/demo_loan.py:272-276 | each object stands in the file at its offset |
| PdfFile.BoundsMeet | scripts/demo_loan.py:272-276 | each object ends where the next starts, and the last where the table does |
| PdfFile.OffsetsFit | scripts/demo_loan.py:278-280 | every offset fits the ten digits of an entry, because the text is cut at 3000 bytes |
| PdfFile.EntriesFound | scripts/demo_loan.py:278-280 | twenty-byte entries give the offsets back |
| PdfFile.StreamFound | scripts/demo_loan.py:264-265 | /Length is the number of bytes between stream and endstream, whatever the stream holds |
| PdfFile.TailFound | scripts/demo_loan.py:282-285 | the number after startxref is the offset of the table |
| CsvStream.StreamCsv | api/exports.py:175-216 | the joined chunks parse back to the columns and, under column j, each record's value of that column, empty where it has none; the first chunk is the header, every other one but the last has a hundred rows, and the counter grows by the number of rows |
| CsvStream.StreamReadsBack | api/exports.py:181-216 | wherever the flushes fall the text parses back to the header and every row's cells, for any cell text, if and only if there are columns |
| CsvStream.QuotedIff | api/exports.py:181-184 | quoted are just the cells with a comma, a quote or a line break, and an empty cell alone |
| CsvStream.RowsBack | api/exports.py:181-184 | rows with cells, written with minimal quoting, parse back |
| CsvStream.ChunkLayout | api/exports.py:192-204 | there are ceil(n/100) row chunks, none empty, the i-th holding exactly its hundred rows |
| CsvStream.ChunksJoin | api/exports.py:198-204 | the joined text does not depend on where flushes fall |
| WordWrap.Wrap | scripts/pdf_formats.py:147-159 | the words, which are all of the text but its white space, are kept in order, every line fits or is one word, and no other lines with these words that fit are fewer |
| Text.SpaceSeparates | scripts/pdf_formats.py:150-150 | white space wherever it stands separates the words, and nothing else does |
| WordWrap.FillLines | scripts/pdf_formats.py:149-159 | the loop fills greedily |
| WordWrap.GreedyIsFewest | scripts/pdf_formats.py:150-156 | greedy stays ahead of any other breaking |
| WordWrap.FillIsBreaking | scripts/pdf_formats.py:149-159 | the lines hold the words of the text and keep the width |
| Backtest.ClocksOfDay | scripts/run_backtest.py:80-90 | clocks increase, are hours of the day if and only if there are at most 15 builds, and at most 17 if and only if at most 9 |
| Backtest.WindowEndsIncrease | scripts/run_backtest.py:720-734 | window ends increase strictly over all days and clocks |
| Backtest.WindowsMeet | scripts/run_backtest.py:405-406 | half-open windows that meet share nothing and miss nothing |
| Backtest.DocsInWindow | scripts/run_backtest.py:387-407 | every document whose timestamp parses and lies in the window, as often as it is listed, with a loan or without, and no other |
| Backtest.UploadWindow | scripts/run_backtest.py:540-577 | every document with a known loan goes into exactly one body, of its own loan, and the two counts are right |
| Backtest.SweepDay | scripts/run_backtest.py:723-734 | the windows of a day, up to an hour that does not exist |
| Backtest.Sweep | scripts/run_backtest.py:716-738 | each document with a known loan received after the initial bound and up to the last second of the last clock's hour is in exactly one body, as often as it is listed; uploaded plus failed is their number, answers go to the bodies posted, and the sweep crashes if and only if there are more than 15 builds a day |
| Backtest.ClocksSpread | scripts/run_backtest.py:80-90 | where the clocks of a day start and end, and how far they are apart |
| LoanEvents.WriteLoanEvents | scripts/generate_scale_simulation.py:1336-1413 | every event is in one record file or once in one batch; which batched documents stay on disk is exact, all do if and only if no date has two hour groups, and so is the returned count right |
| LoanEvents.FilesAreCounted | scripts/generate_scale_simulation.py:1358-1401 | the count agrees with the record and PDF files that an empty directory then holds |
| LoanEvents.FlushCounts | scripts/generate_scale_simulation.py:1403-1413 | the flush adds one file a date, however many batches there are |
| LoanEvents.DatesCounted | scripts/generate_scale_simulation.py:1403-1413 | there are as many dates as batches if and only if no two batches share one |
| LoanEvents.IdsDiffer | scripts/generate_scale_simulation.py:1254-1260 | ids with different sequence numbers differ, past four digits too |
| LoanEvents.IdParts | scripts/generate_scale_simulation.py:1254-1260 | an id is made of eight characters of the channel in capitals, the loan, the document type and the number |
| LoanEvents.EnvelopesDistinct | scripts/generate_scale_simulation.py:1343-1350 | all documents of a loan have different ids |
| LoanEvents.EachBatchedOnce | scripts/generate_scale_simulation.py:1352-1356 | the batches hold each Encompass document exactly once |
| LoanEvents.RecordsSurvive | scripts/generate_scale_simulation.py:1358-1401 | the record of an earlier document, and its PDF, stay in the folder of its own date and channel whatever is written later |
| LoanEvents.BatchesSurviveIff | scripts/generate_scale_simulation.py:1403-1413 | all batches survive the flush if and only if no two share a date |
| LoanEvents.GroupsOfEvents | scripts/generate_scale_simulation.py:1353-1355 | two batches share a date if and only if two Encompass events of a day fall in different hour groups |
| LoanEvents.DocumentSurvivesIff | scripts/generate_scale_simulation.py:1352-1413 | an Encompass document is in the file of its date if and only if no other hour group of that date was opened after its own |
| LoanEvents.AfternoonReplacesMorning | scripts/generate_scale_simulation.py:1403-1413 | after a morning and an afternoon document of one day no file holds the morning one |
| Ledger.PrintPage | scripts/pdf_formats.py:655-670 | the date, amount, 38 characters of description and balance of each row of a page, carried on to the next |
| Ledger.GenBankBoa | scripts/pdf_formats.py:651-675 | every printed balance is the ending balance less all later amounts, across the page break, so the last row shows the ending balance |
| Reports.ListReport | api/reports.py:532-569 | the page of the filtered and stably sorted rows, with its envelope, or a refusal |
| Reports.ListReportComplete | api/reports.py:562-566 | all pages together are the kept rows once, in order, equals in their original order |
| Reports.SortBySorts | api/reports.py:724-727 | the sort orders, keeps every element and keeps the order of equals |
| Reports.AllPages | api/reports.py:564-566 | pages one after another give the list, and nothing follows |
| Reports.HasNextIff | api/reports.py:154-160 | has_next is true exactly before the last page |
| Reports.PagesRoundUp | api/reports.py:154-160 | the number of pages is the total over the page size, rounded up |
| Reports.ConflictsReport | api/reports.py:436-460 | one page of all rows, or of the critical ones among those fetched |
| Reports.CriticalPages | api/reports.py:443-453 | the critical pages are complete if and only if no critical row lies beyond the over-fetch, and there are at most four |
| SqlSplit.SplitGivesStatements | scripts/apply_schema.py:31-39 | every piece is trimmed, not empty, and holds no `;` and no `--` |
| SqlSplit.SplitRoundTrip | scripts/apply_schema.py:31-39 | statements with any white space around them and blank pieces between, joined by `;` and commented at line ends, split back if and only if no comment directly follows a dash |
| SqlSplit.CleanDecorated | scripts/apply_schema.py:36-38 | comments, even with `;` in them, go without a trace under that condition |
| SqlSplit.SplitAgain | scripts/apply_schema.py:39-39 | the pieces, joined again, split to themselves |

## Left out

- CatchUpNecessity.SingleDrainIff: is stated for a heartbeat bound above zero and an empty slot at start; with a bound of zero no time could pass beside a live drain.
- CatchUpJobs.JobsGrowIff: is stated under the same two assumptions; in the disciplined direction neither is needed (`DisciplinedJobsGrow`).
- KeyService.KeyStore.VerifyApiKey: the header check, the request context and the last-used timestamp have no state worth proving.
- PdfFile.ReadsBack: the reader takes an object to run to the next offset and does not parse dictionaries, whose references are only shown to be there; string escaping inside the page is not part of this model.
- LoanEvents.WriteLoanEvents: file contents are envelopes, not JSON text, and field generation is not part of this model.
- Ledger.GenBankBoa: amounts are whole cents, not floating point; fonts and headings are left out.
- Backtest.Sweep: the rewriting of applicant ids in a body and the parsing of timestamp strings are left out.
- Reports.ListReport: the two reports share one model with the filter and the sort key as parameters; the percentages are not computed.
- In the drain, elapsed seconds, completion times and error texts are left out, and so is the outer handler that turns a failure of the loop itself into an error status.
- The response bodies and the status endpoint, which only reads the slot, are left out.
- The modules under core/ that are imported but not in the repository's visible files are not part of this model.
- Weighted choice in the scale generator, the simulation's data tables and the other report endpoints would only add easy members.
