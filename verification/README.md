# Verified model of plaidsync, topper and the desktop's totals

The repository keeps a personal finance ledger. **plaidsync** (`plaid-backend-golang`) mirrors
Plaid's transaction feed into Postgres, one linked item at a time, driven by a job queue.
**topper** (`postgres-topper`) turns URL filters into parameterised SQL over those tables and
caches the answers. The **desktop** pages through them and adds up exact decimal balances.

The model covers five parts of it.

1. **The sync protocol.** Plaid is an append-only log of adds, modifications and removals per
   item, and a cursor is a position in it. `Pagination` drains pages with retries, `Engine`
   runs one locked sync, `Ledger` and `Store` give the SQL statements their effect on tables
   and the item transaction its commit and rollback; `Links` says row by row what the two link
   statements come to, and `Filing` what a failed sync leaves for the next. `SyncProtocol`
   interleaves any number of syncs, crashes and item operations. The main theorem is a refinement:
   in every state of every run the stored ledger of an item is the fold of its log up to the saved
   cursor; a row is superseded only by what its log named it by (`SupersededWereNamed`), and every
   stored row is valid (`Rows`).
2. **The job queue.** `JobStore` is the job table, `Runner` enqueues and processes, and
   `JobProtocol` interleaves enqueuers, workers, lost writes, crashes and restarts. The
   inductive bound is one unfinished job per worker and one more for each item; `Fifo` shows over
   whole runs that no waiting job is passed over and how many claims it waits for.
3. **The query compiler.** `Grammar`, `Filters`, `Parser` and `Requests` read a request,
   `Select` compiles it, `Sql` is an evaluator of the emitted tokens with SQL's three truth
   values and its precedence, `Tail` reads ORDER BY, LIMIT and OFFSET, `SqlText` is the text and a
   lexer for it. `QueryText` and `QueryRest` say of the query's texts alone, without the parser,
   which rows, order and page they ask for and which queries are refused. The main theorem is that
   the emitted statement, read back and executed, returns the rows the query's texts ask for, in
   their order (`Answers`). `Placeholders` aligns `$1..$n` with the arguments, `Paging` shows that
   offset paging with the emitted statements returns every row once, and `Upsert` and
   `ArrayLiteral` cover the write path.
4. **Exact decimals.** `Money` (canonical amounts and their order) and `Totals` (sums and
   totals per currency) compute on digit strings; both are proved against exact real values.
5. **Smaller state machines.** `ResponseCache` and `CacheProtocol` (lifetime, capacity, shared
   fills), `HostedLink` and `HostedProtocol` (sessions that settle once).

Code that changes state is modelled by classes and methods with loops, proved against
specification functions; lemmas about those functions carry the properties. Concurrency is
modelled by state machines whose steps use the same functions. What happens outside (Plaid's
answers, failing statements, clocks, jitter) enters as parameters such as `Engine.World`.

## What the proofs found

* `Result.Err` is documented as nil exactly on success
  (`plaid-backend-golang/internal/sync/engine.go:77-79`). It is nil without a success exactly when
  the lock is taken on an item whose stored status is removed or waits for re-authentication and
  the empty commit goes through: `Engine.Engine.SyncItem` states this of the database before the
  call, and `Engine.NilErrorWithoutSuccess` is the call on a removed item.
* An item that waits to be linked again is not to be synced until then
  (`plaid-backend-golang/internal/plaid/errors.go:95-97`). A sync of it fetches nothing, but when the
  database fails around its lock the item is filed as an error, and the next sync asks Plaid again:
  it keeps waiting exactly if beginning and committing succeed, or the database's error is a
  cancellation, or the status write fails too (`Filing.WaitingIsSkipped`).
* Accumulating pages in memory is not always the same as applying them one by one: an id that
  one batch removes before it is known and the next one delivers ends removed. `Ledger.BatchesCompose`
  gives the exact condition and `Ledger.RemovedThenDelivered` two such batches; in a log that never
  re-adds a removed id it does not arise.
* Replaying a batch reports no superseded row exactly when each pending row is named by at most one
  transaction (`Ledger.ReplaySupersedes`); otherwise the link moves between the namers, as for the
  batch of `Ledger.ReplayMovesLink`.
* At most one queued job per item holds only until a restart requeues running jobs
  (`JobProtocol.RestartAndQueue`, `JobProtocol.RestartQueuesTwo`), and each lost terminal write
  adds one to the bound (`JobProtocol.LostWriteAddsOne`).
* A caller that joins another caller's cache flight before its fill is over gets an answer
  produced within its own call. One that joins later gets it exactly if the answer is dated after
  its call began (`CacheProtocol.AnswersAreFresh`), and can receive a body that was stale before
  it began, from an entry (`CacheProtocol.BoardingMayBeStale`) or from a fill
  (`CacheProtocol.BoardingAStoreMayBeStale`).
* `plaid-backend-golang/internal/api/hosted.go:205-207` calls the retry of a failed completion right
  for a transient failure. It is futile once the public token has been exchanged, however transient
  the failure behind the exchange was: a session that polls can find, unsettled, unexpired and free,
  can still complete with a token if and only if the token has not been exchanged
  (`HostedProtocol.RetryCompletesIffUnspent`, with a failing run for an item that is stored and for
  one that is not in `HostedProtocol.NextPollFails`).
* An item lookup that shutdown cancels makes `process` write the job as failed
  (`Runner.FailedLookupEndsJob`) instead of leaving it running for the next start. A job is left
  running exactly if its sync was canceled or its terminal write lost (`Runner.Runner.Process`).
* A predicate of the catalog keeps its meaning only if it is one factor: a disjunction without
  parentheses would change it (`SelectMeaning.BareDisjunctionIsNot`).

## Model

| member | source | states |
|---|---|---|
| Money.ReadSpells | plaid-backend-golang/internal/money/amount.go:110-145 | the reader accepts exactly the strings of the documented grammar, each as the one literal that spells it |
| Money.Normalize | plaid-backend-golang/internal/money/amount.go:128-160 | digits and scale without leading or (behind the point) trailing zeros denote the literal's exact value, exponent included |
| Money.Canonicalize | plaid-backend-golang/internal/money/amount.go:110-175 | accepts exactly the grammar, keeps the exact value, and answers in canonical form |
| Money.CanonicalIsUnique | plaid-backend-golang/internal/money/amount.go:38-42 | two amounts are the same string exactly when their values are equal |
| Money.ParseOfString | plaid-backend-golang/internal/money/amount.go:55-78 | parsing what String prints succeeds and gives the same amount |
| Money.NegNegates | plaid-backend-golang/internal/money/amount.go:87-96 | Neg stays canonical, negates the exact value and is its own inverse |
| Money.NonZero | plaid-backend-golang/internal/money/amount.go:80-98 | a non-empty amount is not zero, and its sign character is the sign of its value |
| Money.ScaledIntIsExact | plaid-backend-golang/internal/money/compare.go:22-39 | the integer at any sufficient scale denotes exactly the amount's value |
| Money.CmpIsValueOrder | plaid-backend-golang/internal/money/compare.go:12-15 | Cmp is the total order of the exact values |
| Totals.CommonScale | desktop/src/renderer/src/lib/format.ts:46-53 | the common scale is the longest fraction of any present value |
| Totals.ContributionsAreExact | desktop/src/renderer/src/lib/format.ts:54-61 | at the common scale the scaled integers add up to exactly the sum of the values |
| Totals.AddUp | desktop/src/renderer/src/lib/format.ts:54-61 | the loop's total is the sum of the contributions, absent values counting for nothing |
| Totals.FixedPrints | desktop/src/renderer/src/lib/format.ts:62-66 | the printed text denotes total * 10^-scale with exactly that many fraction digits and a sign only if negative |
| Totals.SumDecimals | desktop/src/renderer/src/lib/format.ts:46-66 | the text returned denotes exactly the sum of the inputs, at the longest scale among them |
| Totals.FlipNegates | desktop/src/renderer/src/lib/format.ts:34-38 | flipping the sign character of a printed sum negates its exact value |
| Totals.GroupAccounts | desktop/src/renderer/src/lib/balances.ts:15-25 | one group per currency that occurs, in order of first appearance, holding that currency's assets, liabilities and count |
| Totals.TotalIsExact | desktop/src/renderer/src/lib/balances.ts:26-33 | assets, liabilities and net = assets - liabilities of a group are exact, the accounts of type credit or loan being the liabilities |
| Totals.SortByAccounts | desktop/src/renderer/src/lib/balances.ts:33-33 | the rows by descending number of accounts, those with as many in the order they came |
| Totals.TotalsByCurrency | desktop/src/renderer/src/lib/balances.ts:15-34 | one exact row per currency that has an account and no other, most accounts first, ties in order of first appearance |
| Totals.NothingLost | desktop/src/renderer/src/lib/balances.ts:15-34 | counts and worths over the distinct currencies add up to all readable accounts and all their balances |
| Records.Dedupe | plaid-backend-golang/internal/store/transactions.go:154-166 | each id once, at its first position, with its last value; the same loop serves accounts |
| Records.DedupeKeepsLast | plaid-backend-golang/internal/store/accounts.go:112-124 | any such list says of every id what the last delivery said |
| Ledger.UpsertOneStores | plaid-backend-golang/internal/store/transactions.go:33-73 | one upsert leaves the delivered data with the row's history kept, exactly unless an identical payload was stored with other columns |
| Ledger.UpsertAllAt | plaid-backend-golang/internal/store/transactions.go:33-73 | a list of upserts gives each id its last delivery and leaves the others |
| Ledger.DedupeRefinesUpserts | plaid-backend-golang/internal/store/transactions.go:154-224 | upserting the deduplicated list is upserting the whole list one by one |
| Ledger.BatchEntryAt | plaid-backend-golang/internal/store/sync_batch.go:129-155 | what a batch makes of one id: last delivered data, then the removal flag for the item's own rows |
| Ledger.BatchesCompose | plaid-backend-golang/internal/store/sync_batch.go:129-155 | two batches in order leave the same entry as their concatenation, exactly unless the first removes an id not yet known that the second delivers and does not remove |
| Ledger.RemovedThenDelivered | plaid-backend-golang/internal/store/sync_batch.go:129-155 | for any transaction, removed by one batch and delivered by the next, two batches and their concatenation leave different entries |
| Ledger.BatchKeepsNamedSuperseded | plaid-backend-golang/internal/store/transactions.go:101-123 | a batch keeps every row superseded that a stored row of its item names as pending, whichever arrived first |
| Ledger.ReplayWritesNothing | plaid-backend-golang/internal/store/transactions.go:33-94 | re-applying a batch writes no payload and removes nothing |
| Ledger.LinksSettle | plaid-backend-golang/internal/store/transactions.go:247-277 | after both link statements a row has no unlinked namer left exactly when it has at most one |
| Ledger.NothingToLink | plaid-backend-golang/internal/store/transactions.go:101-123 | the statements report no link exactly when every row's namers are linked already, and then change nothing |
| Ledger.ReplaySupersedes | plaid-backend-golang/internal/store/transactions.go:247-277 | a replay reports no superseded row exactly when each pending row has one namer, and then changes no row |
| Ledger.ReplayMovesLink | plaid-backend-golang/internal/store/transactions.go:247-277 | two transactions delivered with the pending one both name: the replay of their batch reports a link |
| Links.BatchLinksRightly | plaid-backend-golang/internal/store/transactions.go:95-123 | after a batch the link of every row, by whom and since when, is as it was unless another transaction names the row: a delivery, or a stored row of the item if the row is delivered; then it is one of those, and the date is that of the first link |
| Links.BatchReports | plaid-backend-golang/internal/store/transactions.go:247-277 | the reported count: every row something else names is counted once or twice, and once if nothing more names it; so none are reported exactly when no row is named anew |
| Links.NewLinksAreNamed | plaid-backend-golang/internal/store/transactions.go:101-123 | a link a batch changes is on a row of its item and points to a stored row of the item whose own column names it |
| Store.ItemTx.UpsertAccounts | plaid-backend-golang/internal/store/accounts.go:129-149 | validates all accounts before writing any; then each is written in order |
| Store.ItemTx.UpsertTransactions | plaid-backend-golang/internal/store/transactions.go:181-224 | succeeds exactly for valid rows whose written ones have an account; new table and the three counts |
| Store.ItemTx.SoftDeleteTransactions | plaid-backend-golang/internal/store/transactions.go:229-238 | flags the item's listed rows and counts those flagged for the first time |
| Store.ItemTx.LinkPendingTransactions | plaid-backend-golang/internal/store/transactions.go:247-277 | runs the forward, then the reverse link; afterwards every row is linked as its namers say and no other, and the count is that of the rows named anew |
| Store.ItemTx.ApplyAccounts | plaid-backend-golang/internal/store/sync_batch.go:108-128 | steps 1 and 2 succeed exactly if every account is valid and no statement is refused; then rows, flags, count and missing ids are those of the listing |
| Store.ItemTx.ApplyTransactions | plaid-backend-golang/internal/store/sync_batch.go:129-150 | steps 3 to 5 succeed exactly if every row is valid and belongs to an account and no statement is refused; then the table and all five counts are those of the batch |
| Store.ItemTx.ApplySyncBatch | plaid-backend-golang/internal/store/sync_batch.go:98-179 | refuses a removed item and an empty cursor untouched; succeeds exactly if the item is there, the batch can be stored and no statement is refused; then rows, accounts, cursor and every reported count are those of the whole batch; every link, and the superseded count, is as the deliveries and stored rows name it |
| Store.InsertedIsGrowth | plaid-backend-golang/internal/store/transactions.go:181-224 | the inserted count is the table's growth, and inserted, updated and unchanged split the distinct ids |
| Store.CountedAre | plaid-backend-golang/internal/store/transactions.go:168-224 | inserted, updated and unchanged are the numbers of deliveries that are new, that are stored with another payload, and that are stored as they are |
| Store.CursorIsSaved | plaid-backend-golang/internal/store/sync_batch.go:49-64 | the cursor is saved with its time, the item is active without an error, and nothing else changes |
| Store.AccountAfter | plaid-backend-golang/internal/store/accounts.go:25-58 | every account after a batch: a listed one with its data, seen now and not missing; an unlisted one of the item missing since it first was; the others as they were; and which ids are reported missing |
| Store.BatchReplay | plaid-backend-golang/internal/store/sync_batch.go:98-179 | replaying a batch reports nothing inserted, updated or removed; nothing superseded exactly when each pending row has one namer, and then no transaction changes |
| Store.MissingMeansUnlisted | plaid-backend-golang/internal/store/accounts.go:54-58 | after a batch that lists accounts, an account of the item is flagged missing exactly when it was not listed |
| Store.AccountReplay | plaid-backend-golang/internal/store/accounts.go:25-58 | replaying the accounts changes only when they were last seen |
| Store.Store.UpsertItem | plaid-backend-golang/internal/store/items.go:71-105 | inserts an active item, or brings an existing one back to active without an error, with the new credential and consent, its cursor and last sync kept; no other item changes |
| Store.Store.UpdateCredential | plaid-backend-golang/internal/store/items.go:148-161 | replaces blob and key version of a credential that is there and nothing else; an item without one is reported missing |
| Store.Store.SetItemStatus | plaid-backend-golang/internal/store/items.go:173-208 | sets any status but removed, on items that are not removed, with the error if there is one; nothing else changes |
| Store.Store.MarkItemRemoved | plaid-backend-golang/internal/store/items.go:215-225 | marks the item removed and erases its credential and key version, and nothing else |
| Store.Store.BeginItem | plaid-backend-golang/internal/store/lock.go:44-81 | takes the lock exactly if it is free and the item exists; a busy lock is reported, an unknown item lets go of it |
| Store.Store.EndItem | plaid-backend-golang/internal/store/lock.go:51-90 | commit or rollback, the lock goes with the transaction |
| Pagination.PlainWait | plaid-backend-golang/internal/sync/engine.go:409-422 | before jitter the wait is the base doubled per attempt, capped |
| Pagination.Backoff | plaid-backend-golang/internal/sync/engine.go:409-422 | with jitter it is the plain wait times the factor, rounded down and capped, so at least half of the plain wait, rounded down |
| Pagination.AbsorbedCounts | plaid-backend-golang/internal/sync/engine.go:376-386 | pages, added, modified and removed count what the pages of the attempt list, and the cursor is that of the last one |
| Pagination.DrainOnce | plaid-backend-golang/internal/sync/engine.go:366-390 | one attempt is an unbroken chain of cursors from the original one, complete or broken by its last request, and accumulates exactly its pages, which are those the server sends |
| Pagination.Paginate | plaid-backend-golang/internal/sync/engine.go:357-404 | the result is the last attempt's chain with nothing of failed attempts, in at most MaxAttempts attempts, retried only on retryable failures, with bounded waits; it fails exactly if the server's delivery does |
| Engine.Engine.ApplyPages | plaid-backend-golang/internal/sync/engine.go:205-258 | success exactly if the accounts come, the batch can be stored and no write is refused, and then exactly the batch of the pages was applied; any other recorded end leaves the data as it was |
| Engine.Engine.FetchAndApply | plaid-backend-golang/internal/sync/engine.go:166-258 | a success covers a complete chain from the saved cursor and happens exactly if Plaid delivers a chain that can be applied or has no cursor; not ready exactly for a chain without a cursor |
| Engine.Engine.RunLocked | plaid-backend-golang/internal/sync/engine.go:136-258 | an item is skipped exactly when its status read under the lock is neither active nor error; success and readiness exactly from the token, the delivery and the writes; the failure is the one Plaid sends, or the key's; the audit row is exactly that of the outcome |
| Engine.Engine.Conclude | plaid-backend-golang/internal/sync/engine.go:236-299 | a failed commit or audit row undoes the batch and is the only way to lose a success; the lock is let go of; the failure is filed on the item; no error without success exactly for a skipped item |
| Engine.Engine.AfterRollback | plaid-backend-golang/internal/sync/engine.go:259-299 | the error decides the outcome; only the item's status and one audit row, which says what the call returns, may change |
| Engine.Engine.SetItemStatusAfterFailure | plaid-backend-golang/internal/sync/engine.go:477-502 | a failed run moves the item to error or the re-authentication state its code asks for, retryable failures only record the error |
| Engine.Engine.SyncItem | plaid-backend-golang/internal/sync/engine.go:124-299 | the lock is free afterwards; data and cursor change only on a success over a complete chain, by exactly its batch; from the database, the locks and the outside before the call: exactly when it succeeds, is not ready, is locked, or has neither success nor error, and exactly which Plaid or decryption failure is its error; outcome and item status are those of the error, class by class and code by code; Plaid is asked exactly if the lock and the token can be had; the one audit row repeats item, outcome, saved and new cursor and pages, and is there for certain after a success or a failure of Plaid or the key, and never after a canceled run or one with neither success nor error |
| Engine.NilErrorWithoutSuccess | plaid-backend-golang/internal/sync/engine.go:77-79 | a removed item, nothing failing: the outcome is fatal and the error nil |
| Filing.FailureIsFiled | plaid-backend-golang/internal/sync/engine.go:466-502 | a Plaid failure that is recorded leaves the item in the re-auth state its code asks for, in error if fatal or unclassified, and as it was if retryable or canceled, with the outcome of its class |
| Filing.WaitingIsSkipped | plaid-backend-golang/internal/sync/engine.go:141-148 | a sync of an item that waits to be linked again fetches nothing and changes no row; exactly when the database fails around its lock the item is moved to error |
| Filing.FailureThenNext | plaid-backend-golang/internal/sync/engine.go:136-299 | after a failure that needs re-authentication the next sync asks Plaid nothing; after any other it asks whenever it gets at the token |
| PlaidLog.SegmentIsStep | plaid-backend-golang/internal/sync/engine.go:357-404 | a segment of a well-formed log does to an entry what one batch of its last upserts and removals does |
| PlaidLog.PageLast | plaid-backend-golang/internal/sync/engine.go:380-395 | a page listing added, modified and removed separately says the same of every id as the events in order |
| PlaidLog.AbsorbExtends | plaid-backend-golang/internal/sync/engine.go:380-395 | appending the next page's lists extends the log segment that the accumulated state stands for |
| SyncProtocol.ChainCovers | plaid-backend-golang/internal/sync/engine.go:357-404 | pages from an honest server, each asked with the cursor of the one before, cover the log from the first cursor to the last |
| SyncProtocol.CommitAdvances | plaid-backend-golang/internal/store/sync_batch.go:98-179 | applying such a batch moves the item's ledger from one log prefix to the next and leaves every other item's alone |
| SyncProtocol.CommitKeepsGood | plaid-backend-golang/internal/store/sync_batch.go:98-179 | a commit keeps ledger and log in step, named rows superseded, and credentials in line with status |
| SyncProtocol.SyncItemKeepsGood | plaid-backend-golang/internal/sync/engine.go:124-299 | one call of SyncItem keeps a good database good, whatever failed or was canceled |
| SyncProtocol.StepKeepsInv | plaid-backend-golang/internal/store/lock.go:44-90 | locking, fetching, retrying, giving up, committing, crashing and every item operation keep the invariant |
| SyncProtocol.RunsAreGood | plaid-backend-golang/internal/sync/engine.go:124-299 | the invariant holds in every state of every interleaving from the empty database on |
| SyncProtocol.LedgerIsPrefixOfLog | plaid-backend-golang/internal/sync/engine.go:136-236 | in every reachable state each stored row is the fold of the log up to the saved cursor, and no live row is named as pending by a stored one |
| SyncProtocol.SupersededWereNamed | plaid-backend-golang/internal/store/transactions.go:95-123 | in every reachable state a row is superseded only by a stored row of its item that the item's log up to the saved cursor named as its posted form |
| SyncProtocol.CommitsLinkRightly | plaid-backend-golang/internal/store/transactions.go:95-123 | over any run a link changes only in a commit of its own item, then to a stored row that names it, and a row nothing else names keeps link and date |
| Rows.RowsStaySound | plaid-backend-golang/internal/store/transactions.go:125-148 | in every reachable state every stored transaction has an id, a date, a payload, an amount of at most six decimals and a stored account |
| SyncProtocol.StepEffects | plaid-backend-golang/internal/store/items.go:71-225 | only relinking brings a removed item back; cursors and rows change only in a commit of a sync that found the item active or in error |
| SyncProtocol.CursorsOnlyAdvance | plaid-backend-golang/internal/store/sync_batch.go:54-63 | over any run a saved cursor never moves back and no item disappears |
| JobStore.Oldest | plaid-backend-golang/internal/store/queue.go:18-34 | none of the given jobs was created earlier than the one returned, and none created together with it has a smaller id |
| JobStore.JobTable.CreateJob | plaid-backend-golang/internal/store/jobs.go:40-64 | inserts one queued job for an existing item, or changes nothing |
| JobStore.JobTable.ClaimJob | plaid-backend-golang/internal/store/queue.go:18-34 | of the queued jobs no other claim has locked, one that none was created before (nor together with a smaller id) moves to running, and only that one |
| JobStore.JobTable.StartJob | plaid-backend-golang/internal/store/jobs.go:85-102 | only a queued job starts; the other cases are told apart |
| JobStore.JobTable.FinishJob | plaid-backend-golang/internal/store/jobs.go:111-131 | a terminal state is written once; a finished job refuses a second one |
| JobStore.JobTable.QueuedJob | plaid-backend-golang/internal/store/queue.go:39-50 | the item's queued job that none of its others was created before, if any |
| JobStore.JobTable.RequeueRunningJobs | plaid-backend-golang/internal/store/queue.go:58-67 | every running job is queued again with its creation date kept, the others stay; the count is theirs |
| Runner.Runner.Enqueue | plaid-backend-golang/internal/jobs/runner.go:112-139 | refuses unknown, removed and unsyncable items; returns the oldest queued job of the item or creates one and wakes a worker |
| Runner.BurstCollapses | plaid-backend-golang/internal/jobs/runner.go:112-139 | a second trigger gets the first one's job and changes nothing |
| Runner.Runner.EndUnsynced | plaid-backend-golang/internal/jobs/runner.go:222-255 | which jobs end before a sync and how: lookup failure, removed, re-authentication, manual too soon |
| Runner.FailedLookupEndsJob | plaid-backend-golang/internal/jobs/runner.go:222-229 | a job whose item lookup fails, canceled or not, is written failed with the lookup code and without a sync |
| Runner.ManualIsDebounced | plaid-backend-golang/internal/jobs/runner.go:238-244 | a job is skipped as too soon exactly if it was asked for by hand and less than the interval has passed since the last sync |
| Runner.Runner.EndSynced | plaid-backend-golang/internal/jobs/runner.go:250-276 | the end the sync's outcome asks for is written, none after a canceled one, and the item's follow-up counter and schedule follow its readiness |
| Runner.Runner.Process | plaid-backend-golang/internal/jobs/runner.go:222-276 | a job ends by its early end or its sync's outcome; it is left running exactly if the sync was canceled or the write lost, and succeeded exactly if the sync did and the write was not lost, its state and code being those of the outcome; other jobs are untouched; rows change only under a success, and without a sync the database is untouched; the follow-up counters and the follow-up scheduled are those its readiness asks for |
| Runner.Runner.Finish | plaid-backend-golang/internal/jobs/runner.go:331-350 | the terminal write of a running job takes effect unless it is lost |
| Runner.Runner.RetryNotReady | plaid-backend-golang/internal/jobs/runner.go:304-327 | schedules the next delay and counts it, until the delays are used up; no other item's counter changes |
| Runner.FollowUpsAreBounded | plaid-backend-golang/internal/jobs/runner.go:264-327 | over any sequence of processed jobs of any items an item gets at most one follow-up per delay for each time it was ready, plus one round; none without a not-ready answer; and while it never was ready, one per answer until the delays are used up |
| JobProtocol.StepKeepsInv | plaid-backend-golang/internal/jobs/runner.go:112-219 | every step keeps the invariant and every terminal job |
| JobProtocol.RunsAreGood | plaid-backend-golang/internal/jobs/runner.go:154-219 | the invariant holds in every state of every interleaving |
| JobProtocol.TerminalIsForever | plaid-backend-golang/internal/store/jobs.go:104-131 | over any run a terminal job never changes, and no two workers hold one job |
| JobProtocol.FinishIsNeverRefused | plaid-backend-golang/internal/jobs/runner.go:331-350 | in every run a terminal write finds its worker's job running, takes effect, and leaves the job with no worker |
| JobProtocol.ItemIsBounded | plaid-backend-golang/internal/jobs/runner.go:112-219 | without lost writes an item has at most Concurrency + 1 queued and running jobs, in any run |
| JobProtocol.OneQueuedUntilRequeue | plaid-backend-golang/internal/jobs/runner.go:106-139 | at most one queued job per item while no restart requeues a running job |
| JobProtocol.RestartAndQueue | plaid-backend-golang/internal/store/queue.go:52-67 | a restart leaves an item with at most one queued job exactly if its unfinished jobs were at most one |
| JobProtocol.RestartQueuesTwo | plaid-backend-golang/internal/store/queue.go:52-67 | a run with one worker and one crash after which an item has two queued jobs, so the bound is reached |
| JobProtocol.LostWriteAddsOne | plaid-backend-golang/internal/jobs/runner.go:331-350 | a run in which a lost terminal write brings an item to Concurrency + 2 unfinished jobs |
| Fifo.NoOvertaking | plaid-backend-golang/internal/store/queue.go:18-34 | in every run a claim that finds a job waiting and unlocked takes it or one created no later |
| Fifo.EveryClaimShortens | plaid-backend-golang/internal/store/queue.go:18-34 | over any stretch of a run in which a job waits unlocked, the jobs ahead of it change by exactly those that join and the claims made |
| Fifo.WhoJoins | plaid-backend-golang/internal/store/queue.go:18-67 | only a restart that requeues an older job or a job with an earlier creation date gets ahead of a waiting one |
| Fifo.WaitIsBounded | plaid-backend-golang/internal/store/queue.go:18-34 | without those a job waits for at most as many claims as there were jobs ahead of it, and the next claim is its own |
| Grammar.SplitTopLevel | postgres-topper/internal/query/grammar.go:340-362 | the loop splits at the commas outside parentheses |
| Grammar.SplitUndoesJoin | postgres-topper/internal/query/grammar.go:340-362 | splitting undoes joining exactly for terms in one piece that close what they open |
| Grammar.SplitOfJoin | postgres-topper/internal/query/grammar.go:260-278 | splitting a joined list at every comma gives it back exactly if it is not empty and no part has a comma |
| Grammar.TrimKeeps | postgres-topper/internal/query/grammar.go:226-278 | trimming keeps exactly the strings without outer white space and empties exactly the blank ones |
| Filters.FilterIsValid | postgres-topper/internal/query/grammar.go:260-290 | an accepted filter has as many values as its operator takes |
| Filters.ListRoundTrip | postgres-topper/internal/query/grammar.go:260-278 | a printed in-list parses back exactly if no value has a comma or outer spaces and it is not the one empty value |
| Filters.FilterRoundTrip | postgres-topper/internal/query/grammar.go:260-290 | a printed condition parses back to itself exactly if it is printable, for every operator |
| Parser.ExposedIsExposed | postgres-topper/internal/query/grammar.go:214-223 | a name is accepted exactly if the relation has the column and does not deny it |
| Parser.ParseTerms | postgres-topper/internal/query/grammar.go:305-337 | terms in order, blank ones skipped, the first bad one decides |
| Parser.ParseOrGroup | postgres-topper/internal/query/grammar.go:305-337 | an accepted group is not empty and holds only accepted conditions |
| Parser.TermsAreAccepted | postgres-topper/internal/query/grammar.go:293-337 | whatever the terms, accepted conditions name exposed columns and respect the type and size rules |
| Parser.GroupRoundTrip | postgres-topper/internal/query/grammar.go:305-337 | any list of accepted conditions printed as or=(...) parses back to itself when values hold no commas, parentheses or outer spaces |
| Requests.ParseSelect | postgres-topper/internal/query/grammar.go:226-245 | an accepted select list is not empty, without repeats and exposed throughout |
| Requests.ParseGroups | postgres-topper/internal/query/grammar.go:159-165 | accepted groups are the parse of each or parameter, one each, in order; otherwise the problem is that of the first bad one |
| Requests.ParseColumn | postgres-topper/internal/query/grammar.go:195-205 | one condition per value of a repeated key, each the parse of its value; otherwise the problem of the first bad value |
| Requests.ParseToggle | postgres-topper/internal/query/grammar.go:179-188 | a repeated toggle and one that is neither on nor off are refused |
| Requests.ParseKeys | postgres-topper/internal/query/grammar.go:167-207 | one condition per value of each key that is no toggle, in order, with nothing left out; each toggle on exactly if its key has an on value; otherwise the first problem of the first bad key |
| Requests.ParseProjection | postgres-topper/internal/query/grammar.go:81-108 | the projected names are distinct and exposed |
| Requests.Parse | postgres-topper/internal/query/grammar.go:81-208 | refuses exactly the queries with a bad parameter, whatever order the keys come in; an accepted one has the parse of every or parameter, one condition per filter value, and exactly the requested toggles on, and is safe to compile |
| Requests.SafeIsValid | postgres-topper/internal/query/select.go:16-37 | what Parse accepts meets what the compiler requires |
| QueryText.BareIsEquality | postgres-topper/internal/query/grammar.go:286-289 | a value that begins with no operator name and point is equality with the whole of it, and is refused where an operator is mandatory |
| QueryText.ComparisonForms | postgres-topper/internal/query/grammar.go:278-281 | eq. neq. gt. gte. lt. lte. like. ilike. and what follows are those comparisons |
| QueryText.OtherForms | postgres-topper/internal/query/grammar.go:261-285 | is. is one of the two null tests or refused; in. is a parenthesised list that is not blank, its parts trimmed, or refused |
| QueryText.FilterSays | postgres-topper/internal/query/grammar.go:258-290 | the condition a value is parsed to holds of exactly the rows its text says, prefix by prefix |
| QueryText.GroupIsSaid | postgres-topper/internal/query/grammar.go:303-337 | an or=(...) group holds of exactly the rows of which some term says so, the term naming its column up to its first point |
| QueryText.RequestSaysTheQuery | postgres-topper/internal/query/grammar.go:58-206 | an accepted request selects exactly the rows the texts of the query ask for: every value of every column, every group, the forced predicates and those of the toggles not switched on |
| QueryText.BareSelectsEquals | postgres-topper/internal/query/grammar.go:61-61 | so a plain value of a column selects only rows whose cell is equal to it |
| QueryRest.RequestIsAsked | postgres-topper/internal/query/grammar.go:95-156 | projection, order and its direction, limit, offset and count are those the texts name, or the defaults |
| QueryRest.ValueIsRefused | postgres-topper/internal/query/grammar.go:258-301 | a filter value is refused exactly for a column not exposed, a malformed or too long list, a malformed null test, a pattern on a column that is no text, or a plain value in a group |
| QueryRest.RejectedIsRefused | postgres-topper/internal/query/grammar.go:81-206 | Parse refuses exactly the queries with a repeated parameter, an unknown, hidden or repeated name, a bad direction, number, count or toggle, or a refused value or group |
| Sql.AndedReadAs | postgres-topper/internal/query/select.go:52-65 | factors joined by AND read as their three-valued conjunction |
| Sql.OredReadAs | postgres-topper/internal/query/select.go:70-83 | factors joined by OR read as their disjunction |
| Sql.GroupReadsAs | postgres-topper/internal/query/select.go:70-83 | a parenthesised disjunction is one factor wherever it stands |
| Select.Builder.Predicate | postgres-topper/internal/query/select.go:86-105 | emits the condition's tokens, placeholders numbered from the arguments already bound, and appends its values |
| Select.Builder.Predicates | postgres-topper/internal/query/select.go:70-83 | the same for a list, numbering going on |
| Select.Builder.GroupPredicate | postgres-topper/internal/query/select.go:70-83 | the same for one OR group |
| Select.Builder.GroupPredicates | postgres-topper/internal/query/select.go:70-83 | the same for all OR groups |
| Select.Builder.UserPredicates | postgres-topper/internal/query/select.go:70-83 | conditions, then groups, one running number |
| Select.Builder.FixedPredicates | postgres-topper/internal/query/select.go:52-65 | the forced predicates and those of the toggles that are off |
| Select.Builder.WriteWhere | postgres-topper/internal/query/select.go:52-65 | no clause without predicates, otherwise all of them joined by AND |
| Select.Builder.WriteOrderBy | postgres-topper/internal/query/select.go:110-149 | appends the ORDER BY of the terms, or nothing; `Tail.TailIsRead` reads it back |
| Select.Terms | postgres-topper/internal/query/select.go:110-149 | the requested order, else the default, else the key, completed by the tiebreak |
| Select.TiebreakIsOrdered | postgres-topper/internal/query/select.go:107-149 | every tiebreak column is ordered by, requested terms come first and unchanged, nothing is added twice |
| Select.TermsAreAsked | postgres-topper/internal/query/select.go:107-149 | the requested term comes first, without one the relation's default order, without that its key ascending; then the missing tiebreak columns, ascending |
| Select.BuildSelect | postgres-topper/internal/query/select.go:18-37 | the clauses in order with the arguments of the conditions, then limit and offset; what they mean is read back by `SelectMeaning.StatementsSelect` and `Paging.EmittedReturns` |
| Select.BuildCount | postgres-topper/internal/query/select.go:40-47 | the same WHERE clause and arguments without order and page |
| SelectMeaning.CondReadsAs | postgres-topper/internal/query/select.go:86-105 | the emitted condition, with its own arguments, is true exactly when the condition holds of the row, NULL satisfying nothing but is.null |
| SelectMeaning.UserReadAs | postgres-topper/internal/query/select.go:70-83 | all conditions and every group, each with its own arguments |
| SelectMeaning.FixedReadAs | postgres-topper/internal/query/select.go:52-65 | the forced predicates and the off toggles keep their meaning among the others |
| SelectMeaning.WhereIsTheFilter | postgres-topper/internal/query/select.go:52-65 | before any ORDER BY, LIMIT or end the clause selects exactly the rows the request describes |
| SelectMeaning.StatementsSelect | postgres-topper/internal/query/select.go:18-47 | both statements, with their own arguments, select exactly those rows |
| SelectMeaning.CountIsOfSelect | postgres-topper/internal/query/select.go:40-47 | the count counts the rows the SELECT returns without limit and offset, over any table |
| Tail.TermsAreRead | postgres-topper/internal/query/select.go:139-148 | any list of terms is read back from its tokens with columns and directions, and then what follows |
| Tail.TailIsRead | postgres-topper/internal/query/select.go:28-36 | behind the WHERE clause the statement says, to a reader of its own, ordered by the requested terms, with the requested limit and offset |
| Tail.ClauseEnds | postgres-topper/internal/query/select.go:18-37 | the WHERE clause ends where the ORDER BY begins, whatever row it is read for |
| SelectMeaning.NullTestIsSelfContained | postgres-topper/internal/catalog/catalog.go:93-102 | a null test, the form the views use, keeps its meaning wherever it is placed |
| SelectMeaning.BareDisjunctionIsNot | postgres-topper/internal/catalog/catalog.go:93-102 | a disjunction without parentheses does not |
| Placeholders.NumberedIsUpto | postgres-topper/internal/query/select.go:86-105 | numbering on from n to m means the placeholders are n + 1 to m, once each, in order |
| Placeholders.StatementsAreNumbered | postgres-topper/internal/query/select.go:18-47 | placeholders are 1, 2, ... from left to right, one per argument, limit and offset last |
| SqlText.IdentRoundTrip | postgres-topper/internal/catalog/catalog.go:261-266 | a quoted identifier is read back whatever characters it has |
| SqlText.TokenRoundTrip | postgres-topper/internal/query/select.go:86-105 | the text of a token is read as that token |
| SqlText.ComparisonText | postgres-topper/internal/query/ops.go:21-32 | each operator is written as its own SQL symbol between the quoted column and its placeholder |
| SqlText.LexOfText | postgres-topper/internal/query/select.go:18-149 | the text of any token list is read back as that list |
| Paging.RowLessIsStrict | postgres-topper/internal/query/select.go:110-149 | ordering by terms, with NULLs last ascending and first descending and texts a type may tie, is irreflexive and asymmetric |
| Paging.RowLessIsTransitive | postgres-topper/internal/query/select.go:110-149 | and transitive |
| Paging.OrderByIsTotal | postgres-topper/internal/query/select.go:107-149 | on rows the tiebreak columns tell apart in their own order, the emitted ORDER BY is a strict total order, whatever texts other columns tie |
| Paging.PlanIsStrict | postgres-topper/internal/query/select.go:107-149 | any result the database may return is then strictly sorted |
| Paging.SortedIsUnique | desktop/src/renderer/src/lib/topper.ts:85-95 | two strictly sorted arrangements of the same rows are the same, so all requests see one list |
| Paging.EmittedReturns | postgres-topper/internal/query/select.go:18-37 | executing the emitted statement, as read back from its tokens and arguments, returns exactly a page, of the requested limit and offset, of the selected rows in the requested order |
| Paging.FirstTermSorts | postgres-topper/internal/query/select.go:139-148 | rows in that order are by the first column, smaller first and NULL last, or the reverse for a descending term |
| Paging.FollowPages | desktop/src/renderer/src/lib/topper.ts:87-95 | following the pages of one list until a short one returns the list, in one request more than there are full pages |
| Paging.GetAll | desktop/src/renderer/src/lib/topper.ts:87-95 | every request being answered by a page its own emitted statement permits: every selected row once, by the requested column and then in the one order of all terms, in a bounded number of requests, or the first failed request's status |
| Paging.TiesLoseRows | postgres-topper/internal/query/select.go:107-109 | two rows the order does not tell apart may be paged as one of them twice |
| Answers.AnswerIsAsked | postgres-topper/internal/query/grammar.go:81-206 | from text to rows: every row of an answer is in the table and is one the query's texts ask for, at most as many as the limit it names, in the order and direction it names |
| ArrayLiteral.QuoteInto | postgres-topper/internal/query/upsert.go:149-157 | writes the string in quotes with quotes and backslashes escaped |
| ArrayLiteral.Literal | postgres-topper/internal/query/upsert.go:139-176 | refuses exactly the arrays with an object inside, prints every other |
| ArrayLiteral.LiteralItem | postgres-topper/internal/query/upsert.go:146-172 | the same for one element |
| ArrayLiteral.ElementRoundTrip | postgres-topper/internal/query/upsert.go:146-172 | the text of an element is read back as that element, before a comma, a brace or the end |
| ArrayLiteral.ItemsRoundTrip | postgres-topper/internal/query/upsert.go:139-176 | the items of an array are read back in order |
| ArrayLiteral.LiteralIsReadBack | postgres-topper/internal/query/upsert.go:139-176 | a reader of the array syntax (section 8.15.6 of the PostgreSQL manual) gets the original nested array, with NULL, strings and bare scalars kept apart |
| Upsert.HasAll | postgres-topper/internal/query/upsert.go:178-192 | true exactly if every name is a column written |
| Upsert.ConflictOf | postgres-topper/internal/query/upsert.go:59-76 | a conflict clause exactly if the whole key is written, updating the other written columns or doing nothing |
| Upsert.Supplied | postgres-topper/internal/query/upsert.go:33-38 | the supplied writable columns in ordinal order, all and only those |
| Upsert.Arguments | postgres-topper/internal/query/upsert.go:43-54 | each written column's own value as text, or the first column whose value has none |
| Upsert.TextIsRight | postgres-topper/internal/query/upsert.go:100-136 | NULL has no text, scalars are their own, an array is a literal in an array column and JSON elsewhere; only an array with an object inside, for an array column, is refused |
| Upsert.BuildUpsert | postgres-topper/internal/query/upsert.go:25-82 | refused exactly for an unknown column, nothing to write, or a value without text; otherwise all and only the supplied writable columns with their own values |
| Upsert.BuiltIsExecutable | postgres-topper/internal/query/upsert.go:59-76 | a built conflict clause sets exactly the written columns outside the key |
| Upsert.UpsertStores | postgres-topper/internal/query/upsert.go:56-76 | the statement leaves every written column with its value, every other as it was or at its default, and every other row alone |
| Upsert.UpsertTwice | postgres-topper/internal/query/upsert.go:59-76 | executing it again changes nothing |
| ResponseCache.Cache.Load | postgres-topper/internal/cache/cache.go:97-109 | finds exactly a live entry, and drops an expired one |
| ResponseCache.Cache.DropExpired | postgres-topper/internal/cache/cache.go:113-123 | exactly the live entries are left |
| ResponseCache.Cache.DropSome | postgres-topper/internal/cache/cache.go:123-128 | drops entries, unchanged otherwise, only until one more fits |
| ResponseCache.Cache.Store | postgres-topper/internal/cache/cache.go:113-131 | the new entry is in, nothing is dropped while there is room, live entries only if dropping expired ones did not help, never more than the capacity |
| ResponseCache.Cache.Do | postgres-topper/internal/cache/cache.go:61-88 | fills exactly when nothing live is there or caching is off; a failed fill is not stored |
| CacheProtocol.StepKeepsInv | postgres-topper/internal/cache/cache.go:61-131 | every step of any number of callers keeps the invariant |
| CacheProtocol.RunsAreGood | postgres-topper/internal/cache/cache.go:61-131 | it holds in every state of every interleaving |
| CacheProtocol.AnswersAreFresh | postgres-topper/internal/cache/cache.go:61-88 | capacity respected, fills of a key never overlap, only successful fills stored, each answer is from a fill of its key and was live when found; it was produced within the call, and its fill finished within it or less than a lifetime before, exactly if the stage of the flight the caller boarded allows it: always before the fill is over |
| CacheProtocol.BoardingMayBeStale | postgres-topper/internal/cache/cache.go:69-88 | a run in which a joiner gets a body that had expired before its call began |
| CacheProtocol.BoardingAStoreMayBeStale | postgres-topper/internal/cache/cache.go:69-88 | the same for a joiner that comes while a fill long over is still being stored |
| HostedLink.Sessions.Add | plaid-backend-golang/internal/api/hosted.go:62-72 | registers a session and drops exactly those expired more than six hours ago |
| HostedLink.Session.Poll | plaid-backend-golang/internal/api/hosted.go:159-213 | a remembered answer is repeated without asking Plaid and never changes; otherwise the answer is that of Plaid's session, case by case; it is remembered exactly if it is final |
| HostedLink.Sessions.Status | plaid-backend-golang/internal/api/hosted.go:159-213 | a missing token, an unknown session, or the answer of that session's poll |
| HostedProtocol.StepKeepsInv | plaid-backend-golang/internal/api/hosted.go:159-270 | every step of concurrent polls keeps the invariant |
| HostedProtocol.RunsAreGood | plaid-backend-golang/internal/api/hosted.go:159-270 | it holds in every state of every interleaving |
| HostedProtocol.SettledMeansNoWork | plaid-backend-golang/internal/api/hosted.go:170-213 | once a session is settled nobody calls Plaid for it or completes it, and two polls are never past its lock together |
| HostedProtocol.FinalAnswerIsForever | plaid-backend-golang/internal/api/hosted.go:170-213 | over any run a recorded final answer never changes; a poll that comes later or has no answer yet never asks Plaid, and if it is answered and finds the session, it is with that answer |
| HostedProtocol.UseStays | plaid-backend-golang/internal/api/hosted.go:219-270 | a public token is exchanged by one poll for ever; its item once stored stays stored, and once its poll is done its fate stays |
| HostedProtocol.SpentTokenNeverCompletes | plaid-backend-golang/internal/api/link.go:120-169 | a token exchanged without completing its session never completes any, whether its item was stored or not; one that completed belongs to the session whose poll exchanged it, and its item is stored |
| HostedProtocol.RetryCompletesIffUnspent | plaid-backend-golang/internal/api/hosted.go:203-210 | from every reachable state, a session that polls can find, unsettled, unexpired and with its lock free, can still complete with a public token if and only if the token has not been exchanged |
| HostedProtocol.NextPollFails | plaid-backend-golang/internal/api/hosted.go:203-210 | a run for each case, item stored or not: the exchange succeeds, completion fails, and the next poll asks Plaid, gets the same token and fails with the session unsettled |

## Left out

- HTTP routing, middleware, JSON and URL decoding, gzip, logging, configuration and probes: plumbing around the modelled calls.
- Encryption of access tokens, token verification and redaction: a decryption failure is an input of a sync.
- The Plaid client and its error tables: an error carries its class and its code.
- Plaid's feed: the log is taken never to re-add a removed id, a page not to cover an addition after a modification of the same id, positions are given by a function of the cursor with the empty cursor at the start, and transaction ids are not shared between items.
- `Ledger.UpsertAllAt`: stored and delivered columns are decoded from the payload by one function, which is how the client makes them; equality of stored JSON is equality of payloads.
- Statement clocks: one clock value per batch stands for the statements' own clock readings.
- Several matching rows in UPDATE ... FROM: the row Postgres picks is a parameter with no more known than that it is one of them.
- Row locks a claim skips: the set of locked jobs is a parameter of the claim; `Fifo` speaks of jobs that are not in it.
- Hash collisions of the advisory lock: each item has its own lock.
- `Store.Store.EndItem`: a transaction works on a copy and commits it whole, so the sequential class does not show rows other transactions commit meanwhile; `SyncProtocol` applies a commit to the state it finds.
- `Pagination.Backoff`: durations are unbounded integers, so overflow of 64-bit nanoseconds is not modelled; the jitter is a real factor from 0.5 below 1.5.
- `Pagination.Paginate`: the server's answers are a list; a run that outlives it counts as canceled.
- RefreshRecurring, the webhook's item updates, the scheduler and the poll ticker: they add enqueues, which may come at any time here.
- `JobProtocol.StepKeepsInv`: the coalescing check and the create are two steps under one enqueue mutex; creates outside the runner are not modelled.
- `Totals.SumDecimals`: inputs are decimal texts with at most one point, as Postgres prints NUMERIC; other texts BigInt may accept are not modelled.
- `Requests.Parse`: the sorted order of the query's keys is a parameter (each key once); error texts are reduced to their kind; case folding covers ASCII.
- The projection list and FROM clause of a SELECT and the cast target of an insert: names from the catalog without placeholders, not part of the token lists.
- `SelectMeaning.StatementsSelect`: comparisons of cell and argument are a function of operator, column and the two texts; LIKE and type casts are inside it. Catalog predicates must be self-contained, which is proved of null tests.
- `Paging.OrderByIsTotal`: the order of values in a column is any strict weak order, so it may be that of the column's type or of its text; collations and types are not modelled beyond it.
- `Upsert.UpsertStores`: constraints other than the key, among them NOT NULL on key columns, triggers and generated values are not modelled; the RETURNING list is left out.
- `ArrayLiteral.Literal`: a float64 element, reachable only when a caller decodes without exact numbers, is not modelled, nor Postgres's demand that nested arrays have equal lengths.
- `Upsert.BuildUpsert`: encoding a value as JSON text is a function that always succeeds, as it does for decoded JSON; a float64 scalar is not modelled.
- BuildDelete, ETag and Matches, list limits, UUID texts and civil dates: single-branch facts.
- `CacheProtocol.AnswersAreFresh`: a fill that panics is not modelled.
- `HostedProtocol.StepKeepsInv`: restarts, which empty the session table, are not modelled; neither are polls abandoned by their client.
- Electron, React components, charts, settings and the SQL of the views.
