# roomrs, modelled and verified in Dafny

roomrs is a Room-style layer over SQLite written in Rust. This project models the parts of it whose
behaviour is hard to see from one function body, and proves what they promise:

- **Live queries** (`Filter`, `LiveSpec`, `LiveExact`, `LiveProtocol`, `LiveInvariants`,
  `LiveFreshness`, `LiveRequests`, `LiveEnd`, `LiveTracker`, `Callbacks`, `CallbackDelivery`,
  `CallbackOrder`). Writers, the message channel, the notifier, the job queue and
  the workers are one transition system; each lock-held section or atomic operation is one action and
  time is a natural number. Every theorem is about every run. `Tracker` and `JobQueue` are the classes
  whose methods are proved against the same specification functions that the transition system uses.
- **The connection pool** (`PoolState`, `PoolProtocol`): a ticket lock with abandonment, timeouts, a
  maintenance drain and a fatal state.
- **Transactions** (`TxSpec`, `TxSafety`, `Transaction`): the stack of pending invalidation levels
  beside SQLite's savepoint stack. A transaction runs a script of statements and nested savepoints,
  which may fail, unwind and be caught.
- **Schema diff and migration** (`SqlText`, `Snapshot`, `Diff`, `Planner`, `Catalog`, the `Diff…`
  proofs, `Names`, `StmtReader`, `MigrationPlan`, `AutoMigration`, `MigrationRuns`, `MigrationRunner`): a compiler from
  schema to schema with an executable meaning for its statements, the chain planner, the synthesis of
  missing steps, and any number of processes that migrate one file.
- **Canonical text and hash** (`Digits`, `Canonical`, `CanonicalProof`, `CanonicalPrinter`, `Fnv`,
  `FnvValues`, `SnapshotHash`): a length-prefixed printer with a decoder that inverts it, and FNV-1a.
- **Query builder and relation loading** (`Query`, `QueryProof`, `QueryQuotes`, `QueryBuilder`,
  `QuerySelect`, `Relation`): whole SELECT texts against what was asked for, and chunked loading
  against the plain join.

SQLite is abstract: a database is a map from table name to a multiset of rows, its parser an oracle
(`Catalog.Engine`, `Query.Engine`). Modules follow the source files; a function such as
`Diff.DiffPlan` or `TxSpec.Ran` says what an operation does, a class method is proved equal to it,
and the lemmas below are about the function.

## Hypotheses and where code and documents part

- Freshness is proved for one live worker, the number an in-memory database gets. The epoch check
  and the publish are separate actions in the model, as in the code, and the check-to-publish gap is
  harmless only because nobody else publishes. A dropped job (failed checkout, panic) for the
  subscription is excluded by `LiveFreshness.Smooth`, and so is the unknown-dependencies answer.
- The cache that serves new callbacks is fresh at rest if the query succeeds. A rebind between a
  worker's epoch check and its write to the cache lets old rows back in
  (`LiveFreshness.LateRebindLeavesOldRows`); if the query fails from then on, they stay.
- The epoch guard and the window theorems hold for any number of workers.
- Each commit's emission is assumed to cover its changes (`LiveSpec.EmissionCovers`). For transactions
  and for single statements `TxSafety.CommitCovers` and `TxSafety.AutocommitCovers` prove it. Direct
  work on a connection emits only what the hook captured, and `TxSafety.DirectCoversTracked` says that
  this covers the changes exactly if no table without column metadata changed.
- Those assume in turn of each write (`TxSpec.HonestWrite`) that the rows the hook reports are complete
  for the tables it knows and that its text or the hook names every other table it changes. A failed
  batch and a statement that cannot be parsed owe nothing of this. If tables are only named, `TxSafety.CommitNames` still names every changed table.
- A write that survives in a closure whose ROLLBACK TO failed can go unannounced.
  `TxSafety.CoverageIsExact` shows that, without unwinding, this is the only way to lose one.
- `diff_plan` is said to leave nothing unreported and to emit statements that run. With nothing listed
  for review, `DiffCorrect.DiffIsCorrect` gives the exact conditions, and `DiffLimits` a schema pair
  for each that fails. (1) A rename hint on a column that already exists in the old table is treated as
  if it renamed something, so a dropped column can go unreported. (2) Existing rows cannot take a
  default that is not constant; the diff cannot see rows. (3) Column names are compared exactly, by
  SQLite without case: adding a column fails while an old one that differs in case only is still there,
  which happens when the old one is renamed later in the list.
- A filter looks columns up in their exact spelling and compares values with their storage class; SQL
  looks columns up without case and compares INTEGER and REAL by value. `Filter.AgreementIsExact` gives
  the exact condition.
- Neither the query builder nor ALTER TABLE doubles a quote inside a name. `QueryQuotes.ReadsBackExactly`
  and `StmtReader.RenameReadsExactly` say that exactly the names without quotes are read back.
- The query builder prints OFFSET without LIMIT, which SQLite does not parse.
  `QuerySelect.BuiltTextReads` says that exactly those texts are not SQL.
- Migration texts are run as SQLite reads them (`StmtReader`), for schemas whose names hold no quotes and
  whose column types and collations hold no word that begins like another clause (`StmtReader.PlainSchema`).
- The loaders give a repeated parent key its children once per chunk it occurs in.
  `Relation.RepeatedKeysNeedOneChunk` gives the exact condition, `Relation.CopiesInTwoChunks` a failure.

## Model

| member | source | states |
|---|---|---|
| Filter.GroupIsConjunction | crates/roomrs-core/src/live.rs:303-310 | a group matches a row exactly if the AND of its predicates is True under three-valued logic, where SQL and the filter see the same cells |
| Filter.MatchIsSqlTrue | crates/roomrs-core/src/live.rs:223-231 | a filter matches a row exactly if its OR of ANDs is True in SQL, never when it is Unknown, where SQL and the filter see the same cells |
| Filter.AgreementIsExact | crates/roomrs-core/src/live.rs:303-310 | filters over given predicates agree with SQL on all rows of a table if and only if each predicate compares with NULL, or has the spelling of the column SQL takes it for and compares with no number that the other numeric class can store |
| Filter.CaseVariantIsMissed | crates/roomrs-core/src/live.rs:303-310 | a misspelt predicate misses a row that SQL selects |
| Filter.NumericTwinIsMissed | crates/roomrs-core/src/live.rs:303-310 | a number stored in the other class is found by SQL and missed by an equality filter, and the other way about for an inequality |
| Filter.SkippedChangesKeepSelection | crates/roomrs-core/src/live.rs:218-231 | if no change of a list matches a filter of the set, the multiset of rows the set selects is the same before and after |
| LiveSpec.GatherKeepsHits | crates/roomrs-core/src/live.rs:804-839 | draining one more message adds exactly that message's hits to those already gathered |
| LiveSpec.JobInOrder | crates/roomrs-core/src/live.rs:872-909 | a turn submits exactly the jobs due to registered subscriptions |
| LiveSpec.FullJobInOrder | crates/roomrs-core/src/live.rs:872-909 | a Full job is submitted exactly for a subscription that was asked for or whose window ended, with the next generation |
| LiveSpec.CoveredCommitHits | crates/roomrs-core/src/live.rs:848-861 | a commit whose emission covers it either looks the same to a subscription or contains a message that hits it |
| LiveExact.WindowOpensExactly | crates/roomrs-core/src/live.rs:848-869 | said of rows and of what SQL says about them: after any drained messages a window is open exactly where one was, or where some message invalidates everything, names a table of the entry, or changes a row that SQL selects before or after under a filter for that table; without filters, or changes a row of a table of the entry |
| LiveExact.FiltersDecide | crates/roomrs-core/src/live.rs:218-231 | row changes alone open a window of a filtered entry if and only if SQL selects a changed row before or after |
| LiveExact.DrainedRequests | crates/roomrs-core/src/live.rs:804-839 | a turn knows exactly the refresh requests among the messages it drained |
| LiveExact.TurnSubmitsExactly | crates/roomrs-core/src/live.rs:804-909 | from drained messages to jobs: a Full job of the next generation if and only if a refresh was asked for or the window, an old one or one opened by this turn, has ended; a job for new callbacks if and only if only that was asked for |
| LiveTracker.Tracker.constructor | crates/roomrs-core/src/live.rs:722-734 | a new tracker has no subscriptions and the database-wide debounce |
| LiveTracker.Tracker.Register | crates/roomrs-core/src/live.rs:922-930 | a new subscription gets a fresh id, the default debounce and no window; all others stay |
| LiveTracker.Tracker.SetDebounce | crates/roomrs-core/src/live.rs:934-940 | the debounce changes, an open window does not |
| LiveTracker.Tracker.SetTables | crates/roomrs-core/src/live.rs:958-970 | one entry's dependencies become known, and nothing else changes |
| LiveTracker.Tracker.Unregister | crates/roomrs-core/src/live.rs:943-955 | the entry goes and the epoch moves on, so results under way are discarded |
| LiveTracker.Tracker.Schedule | crates/roomrs-core/src/live.rs:848-869 | the loop over the entries opens a window exactly for the hit entries that have none |
| LiveTracker.Tracker.Collect | crates/roomrs-core/src/live.rs:872-909 | the loop over the entries submits exactly the specified jobs and closes exactly the windows that fired |
| LiveInvariants.RunKeepsSound | crates/roomrs-core/src/live.rs:765-919 | the whole invariant of the engine holds along every run, for any number of clients and workers |
| LiveInvariants.WindowIsFixedInEveryRun | crates/roomrs-core/src/live.rs:848-869 | in every reachable state a subscription hit since its last Full job has its window at the first hit's time plus the debounce of that time, any other has none; Full-job generations strictly increase |
| LiveInvariants.WindowNeverMoves | crates/roomrs-core/src/live.rs:848-940 | no action moves an open window; it closes only with a Full job or with the registration |
| LiveInvariants.TurnFiresExactlyWhenDue | crates/roomrs-core/src/live.rs:872-909 | the first turn at or after the window's end submits a Full job of the next generation; an earlier turn changes nothing |
| LiveInvariants.PassedCheckReadAfterBump | crates/roomrs-core/src/live.rs:1263-1277 | whoever passes the epoch check read parameters at least as new as every rebind bumped so far, for any number of workers |
| LiveFreshness.CurrentRunIsFresh | crates/roomrs-core/src/live.rs:1263-1277 | a Full job whose generation is still current ran with the current parameters, or a rebind still owes its refresh |
| LiveFreshness.ClientKeepsRefreshOwed | crates/roomrs-core/src/live.rs:989-992 | no client step forgets a refresh that is owed |
| LiveFreshness.CommitKeepsCovered | crates/roomrs-core/src/live.rs:975-986 | a commit a subscription can see owes it a hit, one it cannot see leaves it fresh |
| LiveFreshness.LoudOwesRefresh | crates/roomrs-core/src/live.rs:1415-1439 | rebinding or changing dependencies owes the subscription a refresh |
| LiveFreshness.RunKeepsGood | crates/roomrs-core/src/live.rs:765-1041 | along every run a tracked subscription is fresh or something outstanding will refresh it |
| LiveFreshness.QuiescentMeansFresh | crates/roomrs-core/src/live.rs:1013-1295 | in every reachable state with nothing outstanding, the last published result is the query on the committed state under the current parameters, and if it has rows the cache for new callbacks holds them |
| LiveFreshness.LateRebindLeavesOldRows | crates/roomrs-core/src/live.rs:1272-1283 | a rebind that falls between a worker's epoch check and its write to the cache leaves rows of the old parameters in the cache, and a refresh that is owed |
| LiveRequests.CollectKeepsPending | crates/roomrs-core/src/live.rs:872-909 | a turn that gathered a request, Full or for a new callback, submits a job for the subscription |
| LiveRequests.RequestIsServed | crates/roomrs-core/src/live.rs:765-1014 | along every run, for any number of workers, a request of a subscription still registered at the end is pending there or a worker took a job for it |
| LiveEnd.EndedResultsAreDiscarded | crates/roomrs-core/src/live.rs:943-1009 | however long after a subscription was dropped or the database closed, no worker gets past the epoch check with a result of it, for any number of workers |
| LiveEnd.CloseShows | crates/roomrs-core/src/live.rs:1002-1125 | closing the database shows every registered subscription as closed, whatever workers do later |
| Callbacks.LiveCallbackPresentOnce | crates/roomrs-core/src/live.rs:1127-1170 | no subscribed callback is lost or duplicated by check-out and restore, in any interleaving with subscribing and dropping |
| Callbacks.DroppedCallbackStaysSilent | crates/roomrs-core/src/live.rs:1516-1529 | no delivery that starts after a guard's drop returned calls its callback, and at most one call already under way still arrives |
| Callbacks.NewOnlyNeverRepeats | crates/roomrs-core/src/live.rs:1143-1153 | a delivery for new callbacks never calls one that was called before |
| Callbacks.ClosedStaysSilent | crates/roomrs-core/src/live.rs:1098-1124 | from any sound closed state no run adds a call or makes a value receivable |
| Callbacks.CloseIsTerminal | crates/roomrs-core/src/live.rs:1098-1124 | after closing returned, no callback runs and no value is received again, whatever is attempted |
| Callbacks.SubShared.constructor | crates/roomrs-core/src/live.rs:1212-1226 | starts empty, open and idle |
| Callbacks.SubShared.Subscribe | crates/roomrs-core/src/live.rs:1405-1412 | appends a new callback under a fresh id |
| Callbacks.SubShared.Enter | crates/roomrs-core/src/live.rs:1128-1135 | a delivery starts unless closing has begun |
| Callbacks.SubShared.Checkout | crates/roomrs-core/src/live.rs:1136-1141 | takes the whole list without the deferred removals and leaves both empty |
| Callbacks.SubShared.Walk | crates/roomrs-core/src/live.rs:1142-1158 | calls, in order and once each, exactly those not removed meanwhile and, for new callbacks only, not called before; marks exactly them |
| Callbacks.WalkIsRun | crates/roomrs-core/src/live.rs:1142-1158 | that loop is a run of the protocol, with the same calls and the same list |
| Callbacks.SubShared.Restore | crates/roomrs-core/src/live.rs:1159-1164 | puts the list back in front of newcomers and removes what was deferred |
| Callbacks.SubShared.Publish | crates/roomrs-core/src/live.rs:1083-1095 | the slot keeps the latest value; a closed slot refuses |
| Callbacks.SubShared.TryRecv | crates/roomrs-core/src/live.rs:1367-1378 | takes the slot; once closed and empty, answers closed for ever |
| CallbackDelivery.WholeDeliveryCalls | crates/roomrs-core/src/live.rs:1127-1170 | in every reachable state, a delivery that nothing interrupts calls every subscribed callback, or every one never called before if it is for new callbacks; each once, and nobody whose drop returned |
| CallbackDelivery.WholeDeliveryRuns | crates/roomrs-core/src/live.rs:1127-1170 | unless closing has begun that delivery is a run of the protocol with exactly those calls, and otherwise it does nothing |
| CallbackDelivery.LatestIsReceived | crates/roomrs-core/src/live.rs:1083-1095 | whatever deliveries and guards do meanwhile, a receiver gets the value published last, once |
| CallbackOrder.OrderOfSubscription | crates/roomrs-core/src/live.rs:1142-1164 | whoever subscribes stands behind everybody who is there and stays behind them, through any deliveries, drops and subscriptions |
| CallbackOrder.CalledInOrder | crates/roomrs-core/src/live.rs:1142-1158 | a delivery calls its callbacks in that order |
| PoolState.SkipStops | crates/roomrs-core/src/pool.rs:28-33 | skipping stops at the first ticket nobody abandoned and forgets exactly the tickets it passed |
| PoolState.ConnectionPool.constructor | crates/roomrs-core/src/pool.rs:67-92 | all connections idle, no tickets, no owners |
| PoolState.ConnectionPool.Advance | crates/roomrs-core/src/pool.rs:28-33 | the loop serves the next ticket that nobody abandoned |
| PoolState.ConnectionPool.Leave | crates/roomrs-core/src/pool.rs:112-116 | the head passes its turn on, any other ticket is abandoned |
| PoolState.ConnectionPool.Enter | crates/roomrs-core/src/pool.rs:95-102 | a ticket is drawn unless the thread owns a connection during maintenance |
| PoolState.ConnectionPool.Poll | crates/roomrs-core/src/pool.rs:105-158 | one look of a waiter: fatal, refused, granted the longest idle connection, timed out, or wait, with the whole new state |
| PoolState.ConnectionPool.Return | crates/roomrs-core/src/pool.rs:245-327 | the owner's count goes down and the connection, or its replacement, goes to the back; otherwise the pool is fatal |
| PoolState.ConnectionPool.BeginMaintenance | crates/roomrs-core/src/pool.rs:177-193 | begins unless the pool is fatal or the caller owns a connection |
| PoolState.ConnectionPool.PollMaintenance | crates/roomrs-core/src/pool.rs:195-221 | the callback runs exactly when every connection is idle; a fatal pool or the deadline ends the drain |
| PoolProtocol.RunKeepsSound | crates/roomrs-core/src/pool.rs:95-326 | tickets, connections, owner counts, sleepers and drain stay consistent along every run |
| PoolProtocol.TicketQueue | crates/roomrs-core/src/pool.rs:95-159 | while not fatal the live waiters are exactly the tickets from the served one on that were not abandoned, and grants strictly increase |
| PoolProtocol.HeadCanTake | crates/roomrs-core/src/pool.rs:95-159 | if somebody waits, a connection is idle and no maintenance is on, the served ticket's waiter is awake and gets the longest idle connection at its next look |
| PoolProtocol.Conservation | crates/roomrs-core/src/pool.rs:245-326 | idle plus outstanding is the total while not fatal, none is shared, and each owner count is the number of that thread's guards |
| PoolProtocol.MaintenanceIsExclusive | crates/roomrs-core/src/pool.rs:175-226 | a maintenance callback runs only with every connection idle and no guard outstanding |
| PoolProtocol.DrainNeverWaitsForWaitingOwner | crates/roomrs-core/src/pool.rs:105-118 | during a drain a waiter that owns a guard is awake and refused at its next look, and the drain's caller owns nothing |
| PoolProtocol.DrainOnlyShrinks | crates/roomrs-core/src/pool.rs:194-213 | during a drain nothing is handed out and every return brings it closer |
| PoolProtocol.LookDoes | crates/roomrs-core/src/pool.rs:105-158 | in every reachable state, a look on a dead pool, or of an owner during a drain, leaves empty-handed; with no drain on, the first in line takes the connection idle longest; everybody else leaves if the deadline has passed and sleeps if not |
| PoolProtocol.DeadlineEndsWait | crates/roomrs-core/src/pool.rs:144-153 | a look after the deadline is the waiter's last, and the first in line is then the one served |
| PoolProtocol.EnterDoes | crates/roomrs-core/src/pool.rs:95-102 | a thread gets the last ticket in line, unless it holds a connection during a drain |
| PoolProtocol.DrainDoes | crates/roomrs-core/src/pool.rs:175-221 | a drain begins unless the pool is dead or its caller holds a connection; it ends, and only then runs the callback, when nobody holds one, and ends without it on a dead pool or at the deadline |
| PoolProtocol.OnlyLossIsFatal | crates/roomrs-core/src/pool.rs:245-327 | a pool is dead exactly if some connection was lost |
| Transaction.Tx.constructor | crates/roomrs-core/src/handle.rs:165-195 | a transaction begins on the committed state with one empty level |
| Transaction.Tx.CollectWrite | crates/roomrs-core/src/handle.rs:590-602 | a statement's claimed tables and hooked rows go to the newest level only |
| Transaction.Tx.CollectWriteAll | crates/roomrs-core/src/handle.rs:606-613 | a failed batch marks the newest level as unknown |
| Transaction.Tx.Execute | crates/roomrs-core/src/handle.rs:758-769 | a write changes database and newest level together, whether it succeeded or not |
| Transaction.Tx.CloseSavepoint | crates/roomrs-core/src/handle.rs:741-752 | releases, or rolls back and releases, the newest savepoint of that name; the first failure skips the rest |
| Transaction.Tx.Nest | crates/roomrs-core/src/handle.rs:715-755 | a savepoint closure, however it ends, leaves exactly the specified database, savepoint stack, depth and levels |
| Transaction.Tx.Run | crates/roomrs-core/src/handle.rs:715-755 | a whole script of statements and nested savepoints does what the specification says |
| Transaction.Tx.EmitPending | crates/roomrs-core/src/handle.rs:616-637 | the loop merges all levels and emits everything, or rows and then the tables without rows |
| Transaction.Tx.Commit | crates/roomrs-core/src/handle.rs:648-655 | emits only after SQLite accepted the commit |
| Transaction.Tx.Drop | crates/roomrs-core/src/handle.rs:819-835 | an open transaction goes back to the database at BEGIN and emits nothing |
| TxSafety.NewestIsOwn | crates/roomrs-core/src/handle.rs:715-755 | whatever a body left on SQLite's stack, closing by name reaches the savepoint its own call opened |
| TxSafety.ClosedInStep | crates/roomrs-core/src/handle.rs:715-755 | closing a savepoint in any way keeps levels and savepoints in step, and restores its start exactly if ROLLBACK TO succeeded |
| TxSafety.RanSafe | crates/roomrs-core/src/handle.rs:715-755 | after any script levels and savepoints are in step, and the record is honest about what changed, even if closures unwound and were caught, unless a write survived a failed ROLLBACK TO |
| TxSafety.CommitCovers | crates/roomrs-core/src/handle.rs:590-655 | the emission of a commit covers every table and filtered row that differs between BEGIN and COMMIT, unless a write survived a failed ROLLBACK TO |
| TxSafety.CommitNames | crates/roomrs-core/src/handle.rs:590-655 | if statements only name the tables they change, a commit still mentions every table that differs |
| TxSafety.CommitIsExact | crates/roomrs-core/src/handle.rs:590-655 | without unwinding, a commit announces everything if a failed batch or an unparsed statement was kept, and otherwise exactly the rows reported and the tables declared outside failed savepoints: the rows first, then the tables that have none among them |
| TxSafety.RanKeeps | crates/roomrs-core/src/handle.rs:715-755 | without unwinding, the levels are level with the nesting and hold exactly what was kept |
| TxSafety.HonestRecord | crates/roomrs-core/src/handle.rs:593-617 | what a write records covers what an honest write changed, and everything if its effect is unknown |
| TxSafety.RanIsEffect | crates/roomrs-core/src/handle.rs:715-755 | whatever fails, unwinds or is caught, the database is the one that the rolled-back savepoints leave, and closing by name reaches no savepoint of a caller |
| TxSafety.ReleasedLeaveNothing | crates/roomrs-core/src/handle.rs:715-755 | if every savepoint is released, none is left and the depth is as before |
| TxSafety.FailedRollbackLosesWrites | crates/roomrs-core/src/handle.rs:745-751 | every script shape without unwinding that lets a write survive a failed ROLLBACK TO has honest writes that no message mentions |
| TxSafety.CoverageIsExact | crates/roomrs-core/src/handle.rs:590-755 | a script shape without unwinding is covered for all honest writes if and only if no write survives a failed ROLLBACK TO |
| TxSafety.AutocommitCovers | crates/roomrs-core/src/database.rs:709-733 | the emission after a single statement covers what it changed |
| TxSafety.AutocommitIsExact | crates/roomrs-core/src/database.rs:713-733 | a single statement announces exactly the reported rows and then the declared tables without a row, or everything if it cannot be parsed |
| TxSafety.DirectCoversTracked | crates/roomrs-core/src/handle.rs:197-213 | what direct work on a connection emits covers its changes if and only if only tables with column metadata changed |
| SqlText.NormalizeWsOutsideQuotes | crates/roomrs-migrate/src/lib.rs:488-516 | the character loop computes the fold that the lemmas below are about |
| SqlText.NormalizedIsSpacedWords | crates/roomrs-migrate/src/lib.rs:484-516 | the result is the words of an escape-aware scanner, which reads doubled quotes as one character, joined by single spaces |
| SqlText.SameNormalFormMeansSameWords | crates/roomrs-migrate/src/lib.rs:484-516 | two texts have the same normal form if and only if they have the same words, so only white space outside quotes is forgotten |
| SqlText.NormalizedTwice | crates/roomrs-migrate/src/lib.rs:488-516 | normalizing is idempotent |
| SqlText.QuotedIdentifierReadsBack | crates/roomrs-migrate/src/lib.rs:442-444 | every name, quotes and white space included, is read back from its quoted form |
| SqlText.SpelledReadsBack | crates/roomrs-migrate/src/lib.rs:692-722 | a name in double quotes, backticks or brackets, or bare, is read back as it is |
| SqlText.CreatedIndexIsNamed | crates/roomrs-migrate/src/lib.rs:646-722 | an index is found under exactly its name, and known as unique exactly if it is, with or without IF NOT EXISTS and for every way to write the name, unless a bare name reads as IF |
| SqlText.StrippedExactly | crates/roomrs-migrate/src/lib.rs:678-690 | a keyword is taken exactly where it stands after white space, in any case and as a whole word |
| SqlText.OnlyIndexesAreNamed | crates/roomrs-migrate/src/lib.rs:661-672 | only a statement that begins with CREATE INDEX or CREATE UNIQUE INDEX is taken for an index |
| SqlText.UniqueIsExact | crates/roomrs-migrate/src/lib.rs:646-651 | an index is unique exactly if CREATE is followed by UNIQUE |
| SqlText.ReadQuoted | crates/roomrs-migrate/src/lib.rs:697-713 | the cursor loop reads the same text as the recursive reader that quoting is proved against |
| Planner.PlanBuilder.DiffColumns | crates/roomrs-migrate/src/lib.rs:520-618 | the loop with its list of consumed sources appends exactly the specified column plan |
| Planner.PlanBuilder.VisitColumn | crates/roomrs-migrate/src/lib.rs:524-609 | one column: compared, renamed, added, or listed for review, and whether its hint took a source |
| Planner.PlanBuilder.DiffIndexes | crates/roomrs-migrate/src/lib.rs:622-643 | appends exactly the specified index plan |
| Planner.PlanBuilder.DiffTableConstraints | crates/roomrs-migrate/src/lib.rs:454-476 | kind and constraint texts are compared exactly when the columns agree |
| Planner.PlanBuilder.DiffDatabaseTriggers | crates/roomrs-migrate/src/lib.rs:423-439 | appends exactly the specified trigger plan |
| Planner.ComputeDiffPlan | crates/roomrs-migrate/src/lib.rs:383-420 | the whole diff is the plan that the theorems below are about |
| DiffReviews.FieldsAreExact | crates/roomrs-migrate/src/lib.rs:528-551 | exactly the fields of a column that differ are named |
| DiffReviews.ReviewIsExact | crates/roomrs-migrate/src/lib.rs:383-643 | an item is listed for review if and only if the two snapshots call for it, kind by kind; a rename counts for the first new column that hints at its source |
| DiffReviews.NothingToReview | crates/roomrs-migrate/src/lib.rs:383-643 | so the list is empty if and only if nothing is called for |
| DiffReviews.WarningsAreExact | crates/roomrs-migrate/src/lib.rs:457-577 | the warnings are exactly the hints that rename nothing, with the reason, and the tables whose texts could not be compared |
| StmtReader.StatementReads | crates/roomrs-migrate/src/lib.rs:570-606 | the text of a statement with plain names and words is read back as the statement |
| StmtReader.RenameReadsExactly | crates/roomrs-migrate/src/lib.rs:570 | the text of a rename is read back as the rename if and only if no name in it holds a quote |
| StmtReader.PlanReads | crates/roomrs-migrate/src/lib.rs:383-643 | everything a diff of plain schemas emits is read back from its text |
| DiffColumns.ColumnsRun | crates/roomrs-migrate/src/lib.rs:520-618 | with nothing to review, free names and fitting defaults, the column statements run in order and give the new columns plus the old ones no hint took |
| DiffColumns.ColumnsStop | crates/roomrs-migrate/src/lib.rs:524-609 | a new column whose name is still taken by an old one in another case stops the run |
| DiffColumns.MixedIsNew | crates/roomrs-migrate/src/lib.rs:611-617 | that is exactly the new columns if and only if every hint that hides a dropped column really renames it |
| DiffIndexes.IndexesRun | crates/roomrs-migrate/src/lib.rs:622-643 | with nothing to review, the index statements run and add exactly the missing indexes |
| DiffTriggers.TriggersRun | crates/roomrs-migrate/src/lib.rs:423-439 | the trigger statements run in order and leave exactly the new triggers, up to white space outside quotes |
| DiffCorrect.DiffIsCorrect | crates/roomrs-migrate/src/lib.rs:383-643 | a diff with nothing to review runs in emitted order if and only if the added defaults fit the existing rows and no new column meets an old one in another case, and then yields exactly the new columns, indexes and triggers if and only if every hint that hides a dropped column renames it |
| DiffCorrect.KeptTableIsUnchanged | crates/roomrs-migrate/src/lib.rs:454-476 | a kept table with agreeing columns keeps its kind and its CREATE TABLE text up to white space outside quotes |
| DiffLimits.IdleHintHidesDrop | crates/roomrs-migrate/src/lib.rs:613-614 | good schemas with an empty plan and no warning whose old database is not the new schema: a hint on an existing column hides a dropped one |
| DiffLimits.DefaultStopsRun | crates/roomrs-migrate/src/lib.rs:602-607 | good schemas and a table with a row where the plan does not run: a nullable column is added with a default that is not constant |
| DiffLimits.CaseClashStopsRun | crates/roomrs-migrate/src/lib.rs:524-609 | good schemas where the plan does not run: a column is added before the old one that differs in case only is renamed |
| DiffData.RunPreserves | crates/roomrs-migrate/src/lib.rs:520-609 | statements that run keep every stored value, moving each column along its renames |
| DiffData.PlanApart | crates/roomrs-migrate/src/lib.rs:520-609 | no source is renamed twice and no two renames share a target |
| DiffData.RunIsNotOnward | crates/roomrs-migrate/src/lib.rs:520-609 | in statements that run, no rename takes what an earlier one made |
| DiffData.SafePrefixKeepsData | crates/roomrs-migrate/src/lib.rs:520-609 | after any prefix of the safe statements that ran, every value is in the column of its own name or of its single rename, injectively, whatever the review list holds |
| Canonical.FieldReads | crates/roomrs-migrate/src/lib.rs:137-139 | a length-prefixed field ends where it ends, whatever text it holds; lengths count UTF-8 bytes |
| CanonicalPrinter.BuildCanonicalString | crates/roomrs-migrate/src/lib.rs:135-191 | the loops that push into a buffer print the specified text, tables by name and triggers by lower-case name |
| CanonicalProof.SchemaReads | crates/roomrs-migrate/src/lib.rs:135-191 | the decoder inverts the printer on every schema |
| CanonicalProof.CanonicalReadsBack | crates/roomrs-migrate/src/lib.rs:135-191 | the decoder gives back what the canonical text of a snapshot keeps |
| CanonicalProof.CanonicalIsExact | crates/roomrs-migrate/src/lib.rs:135-191 | two canonical texts are equal if and only if the snapshots agree up to order of tables and triggers, rename hints, and absent against empty default, collation and file |
| CanonicalProof.NormalKeepsTable | crates/roomrs-migrate/src/lib.rs:144-181 | what the text keeps of a table is everything but rename hints, up to absent against empty text |
| CanonicalProof.NormalKeepsTrigger | crates/roomrs-migrate/src/lib.rs:182-190 | and of a trigger everything, up to an absent against an empty file |
| CanonicalProof.CanonicalOrder | crates/roomrs-migrate/src/lib.rs:140-183 | tables stand in dictionary order of their names, triggers of their lower-case names |
| Fnv.Fnv1a64 | crates/roomrs-migrate/src/lib.rs:207-214 | the loop computes the hash, which fits a 64-bit word |
| Fnv.HashInjective | crates/roomrs-migrate/src/lib.rs:207-214 | the same bytes never bring two different states together |
| Fnv.OneByteEdit | crates/roomrs-migrate/src/lib.rs:207-214 | byte strings of one length that differ in exactly one place have different hashes |
| FnvValues.PublishedValues | crates/roomrs-migrate/src/lib.rs:207-214 | the hash has the published FNV-1a values for no bytes, "a" and "foobar" |
| SnapshotHash.ComputeHash | crates/roomrs-migrate/src/lib.rs:194-196 | the hash is FNV-1a of the UTF-8 bytes of the canonical text |
| SnapshotHash.BytesInjective | crates/roomrs-migrate/src/lib.rs:194-196 | different texts are hashed from different bytes, because UTF-8 is read back |
| SnapshotHash.FlagFlipChangesHash | crates/roomrs-migrate/src/lib.rs:147-214 | flipping one not_null, pk, strict or without_rowid flag and nothing else always changes the hash |
| MigrationPlan.CheckRanges | crates/roomrs-core/src/migration.rs:80-85 | fails exactly if some step does not lead forward, and names one |
| MigrationPlan.CheckDuplicates | crates/roomrs-core/src/migration.rs:86-91 | comparing neighbours of the sorted versions fails exactly if two steps start at one version |
| MigrationPlan.OnlyStep | crates/roomrs-core/src/migration.rs:97-109 | with valid steps the greedy choice loses nothing: a chain exists exactly if one exists behind the step found |
| MigrationPlan.PlanChain | crates/roomrs-core/src/migration.rs:79-111 | returns a contiguous chain from current to target if and only if the steps are valid and some chain exists; an error says truly why not |
| MigrationPlan.SynthesizeEmbeddedSteps | crates/roomrs-core/src/database.rs:1345-1378 | every usable pair of neighbouring snapshots gives a step or a refusal, and nothing else does; fails if and only if a pair that is not skipped holds a snapshot that cannot be read |
| MigrationPlan.SynthesizedAreNew | crates/roomrs-core/src/database.rs:1345-1378 | synthesized steps lead forward, start once each, never below current, never where a registered step starts and never at a refused version |
| MigrationPlan.SynthesisIsUnique | crates/roomrs-core/src/database.rs:1345-1378 | snapshots and registered steps decide which steps are synthesized |
| MigrationPlan.SafeNeighboursMakeChain | crates/roomrs-core/src/database.rs:1345-1378 | if every pair from the snapshot of the current version to that of the target is readable, unregistered and needs no review, the synthesized steps hold a chain between them |
| MigrationPlan.CheckDestructiveGap | crates/roomrs-core/src/database.rs:1382-1405 | terminates, and fails exactly if the steps run out at a refused version |
| MigrationPlan.StuckMeansNoChain | crates/roomrs-core/src/database.rs:1382-1405 | where the steps run out the planner fails too |
| AutoMigration.StepCarries | crates/roomrs-core/src/database.rs:1367-1376 | the texts of a synthesized step, read as SQL, take a database of its first snapshot to exactly the schema of its second if and only if the conditions of the diff hold |
| AutoMigration.ChainCarries | crates/roomrs-core/src/database.rs:1345-1378 | the texts of any chain of synthesized steps, read as SQL, run to the end and leave exactly the schema of the snapshot it leads to |
| MigrationRuns.HistoryIsOneChain | crates/roomrs-core/src/database.rs:1183-1268 | whatever processes interleave, what took effect on the file is one contiguous chain, each step on its own start version, and creation happened at most once and first |
| MigrationRuns.VersionNeverFalls | crates/roomrs-core/src/database.rs:1183-1268 | the version never goes down |
| MigrationRuns.SuccessMeansMigrated | crates/roomrs-core/src/database.rs:1183-1268 | a process that reported success left the file at its target or beyond, then and ever after |
| MigrationRuns.ValidatorOnlyCreates | crates/roomrs-core/src/database.rs:1190-1225 | a process that only validates never changes a file except to create the schema of an empty one, and fails on a file at another version |
| MigrationRuns.AgreeingProcessesNeverConflict | crates/roomrs-core/src/database.rs:1246-1260 | processes that plan from the same valid steps never meet the conflict error, whatever their targets |
| MigrationRuns.RunKeepsSound | crates/roomrs-core/src/database.rs:1183-1268 | the invariant of file and processes holds along every run |
| MigrationRunner.Database.constructor | crates/roomrs-core/src/database.rs:1183-1186 | a file at some version on which nothing has run yet |
| MigrationRunner.Database.CreateSchema | crates/roomrs-core/src/database.rs:1190-1215 | creates only at version 0 and leaves the file alone on failure |
| MigrationRunner.Database.RunStep | crates/roomrs-core/src/database.rs:1246-1260 | skips, refuses, fails or runs a step by the version under the lock |
| MigrationRunner.Database.RunChain | crates/roomrs-core/src/database.rs:1242-1267 | runs the plan to the target, or stops before the failing step with everything before it kept |
| MigrationRunner.Database.RunSteps | crates/roomrs-core/src/database.rs:1237-1282 | plans and runs given steps: migrates if and only if they hold a chain, and refuses exactly if they run out at a refused version |
| MigrationRunner.Database.RunMigration | crates/roomrs-core/src/database.rs:1183-1282 | alone on the file: creates, passes, or migrates if and only if the registered steps, with auto-migration together with the synthesized ones, hold a chain; a registered chain is never lost |
| MigrationRunner.AutoMigratesExactly | crates/roomrs-core/src/database.rs:1229-1268 | with auto-migration a run migrates if and only if registered and synthesized steps hold a chain, whichever synthesis is looked at |
| QueryBuilder.Buffer.Render | crates/roomrs-core/src/query.rs:159-201 | the recursive printer appends the specified text and the leaf values in order, continuing the numbering of the values already there |
| QueryBuilder.Buffer.RenderIn | crates/roomrs-core/src/query.rs:172-182 | an empty list is never true, any other prints its placeholders |
| QueryBuilder.Buffer.RenderLike | crates/roomrs-core/src/query.rs:165-171 | pattern and escape take the next two placeholders |
| QueryBuilder.CheckColumns | crates/roomrs-core/src/query.rs:298-310 | passes exactly if every column of conditions and ordering belongs to the entity |
| QueryBuilder.Build | crates/roomrs-core/src/query.rs:297-341 | builds exactly for known columns, and gives the specified text and parameters |
| QueryBuilder.BuiltQueryMeansItsConditions | crates/roomrs-core/src/query.rs:263-341 | the WHERE text of a query whose names hold no quote, read back with its bound parameters, says on every row what the and_where and or_where calls say from left to right |
| QuerySelect.KnownIsExact | crates/roomrs-core/src/query.rs:298-310 | a query is refused if and only if a condition or an ordering names something that is not a column of the entity |
| QuerySelect.BuiltTextReads | crates/roomrs-core/src/query.rs:312-341 | the whole text is read back as the statement asked for, with count or columns, table, condition, ordering, limit and offset; it is no SQL if and only if it has an OFFSET without a LIMIT |
| QuerySelect.BuiltQueryAnswersWhatWasAsked | crates/roomrs-core/src/query.rs:297-341 | read as SQL, the text answers exactly the rows that meet the conditions, each column of the ordering smaller first for Asc and greater first for Desc, cut to the page |
| QueryProof.TreeReads | crates/roomrs-core/src/query.rs:159-201 | the text of every tree whose names hold no quote is read back as its predicate, whatever follows it |
| QueryQuotes.ReadsBackExactly | crates/roomrs-core/src/query.rs:159-201 | the text of a tree is read back as its predicate if and only if no printed name holds a quote |
| QueryProof.PlaceholdersAreConsecutive | crates/roomrs-core/src/query.rs:159-201 | the placeholders are the next numbers in order, each used once |
| QueryProof.RenderKeepsMeaning | crates/roomrs-core/src/query.rs:159-201 | under any parameters before and after, the rendered text has the tree's three-valued result on every row |
| QueryProof.EqualityHandlesNull | crates/roomrs-core/src/query.rs:90-97 | eq is True exactly for cells equal to the value, NULL for NULL; ne is True exactly for cells that differ from it and, unless the value is NULL, are not NULL |
| QueryProof.WhereFolds | crates/roomrs-core/src/query.rs:263-279 | any sequence of and_where and or_where folds from the left in three-valued logic |
| Relation.LoadChildren | crates/roomrs-core/src/relation.rs:33-53 | each key gets its rows in table order, once for every chunk it occurs in, and others nothing |
| Relation.ChildrenAreTheJoin | crates/roomrs-core/src/relation.rs:33-53 | for distinct keys that is exactly the join |
| Relation.FewKeysAreOneChunk | crates/roomrs-core/src/relation.rs:44-51 | up to 999 keys are loaded in one chunk, however often a key occurs |
| Relation.RepeatedKeysNeedOneChunk | crates/roomrs-core/src/relation.rs:44-51 | for a repeated key it is the join if and only if the key has no rows or all its copies are in one chunk |
| Relation.CopiesInTwoChunks | crates/roomrs-core/src/relation.rs:44-51 | a thousand copies of a key load its only row twice |
| Relation.LoadPairs | crates/roomrs-core/src/relation.rs:71-81 | the junction pairs of all chunks, in order |
| Relation.Dedup | crates/roomrs-core/src/relation.rs:84-86 | after sorting, dropping equal neighbours leaves each key exactly once |
| Relation.LoadByKey | crates/roomrs-core/src/relation.rs:87-97 | each key asked for has the last row of that key |
| Relation.Assemble | crates/roomrs-core/src/relation.rs:99-104 | following the pairs gives each parent the children its pairs find, in pair order |
| Relation.LoadJunction | crates/roomrs-core/src/relation.rs:59-106 | each parent gets the children of its pairs, once for every chunk it occurs in; no query has more than 999 placeholders |
| Relation.JunctionIsTheJoin | crates/roomrs-core/src/relation.rs:59-106 | for distinct parents and unique child keys that is exactly the junction join in junction order |

## Left out

- SQL parsing (`extract_tables`, `extract_write_tables`, the macros' schema reader): it belongs to a library; what the text claims is an input, assumed to cover the effect or to be unknown.
- rusqlite, PRAGMAs, hooks, WAL, encryption, the SQLITE_LOCKED retry: SQLite is an abstract store with transactions and savepoints.
- COMMIT, ROLLBACK or SAVEPOINT statements that a caller writes by hand inside a transaction.
- Several workers delivering one query at once: `Callbacks` has one delivery at a time and `LiveFreshness` one worker.
- The early exit of `close_terminal` inside the closing thread's own delivery; `Callbacks` speaks of closing outside a delivery.
- Closing all subscriptions at shutdown is one action in `LiveProtocol`, where the code closes them one by one.
- Wrap-around of the u64 tickets, epochs and ids and of u32 versions: they are unbounded; the hash is the only place where the width matters, and there it is modelled.
- Metrics, logging, mutex poisoning, thread spawning and clocks: a deadline is a flag, a condition variable a re-check.
- `Stream` polling, blocking receives (only the non-blocking one is modelled) and the one-time unknown-dependencies notice of a receiver.
- DiffIsCorrect: snapshots written before statements were recorded (empty `ddl`) are not good schemas, and column order is not compared.
- The meaning of CREATE statements is `Catalog.Engine.read`; that RENAME COLUMN also rewrites the texts of indexes and triggers is not modelled.
- The wording of review items and warnings: they are structured values here.
- `parse_create_trigger_name`, `count_create_trigger_statements` and `diff_sql`, which read trigger texts and print a plan, are not modelled.
- StatementReads: a default expression is taken to the end of the statement, as it stands; types and collations with a word that begins like another clause are not covered, and for them and for names with quotes nothing is said about a migration's texts.
- A step's SQL is the list of its statements' texts; joining them by semicolons, and code steps, are an outcome (works or fails) in `MigrationRunner`.
- `run_destructive`: it drops everything on purpose and may lower the version.
- ChainCarries: registered steps in the chain are not covered, because what a hand-written step does is not known.
- AgreementIsExact: column affinity and collations are not modelled, only that numbers compare by value; in `Query` comparison is an oracle.
- CoverageIsExact: scripts that unwind are only covered in the direction of `CommitCovers`, because an unwound closure can leave its own level for the failing one to drop.
- RenderKeepsMeaning: stated for column names without a double quote, the only ones that are read back.
- BuiltQueryAnswersWhatWasAsked: the order of values under a collation is a parameter, and a limit or offset beyond a 64-bit signed number is read as it stands.
- The SELECT text of the relation loaders; rows come in table order.
- Sorting is insertion sort as a function, whichever algorithm the library uses: it is proved to give a sorted list of the same elements, which for distinct keys is the only one.
- Snapshot files, JSON, compression, export, the async facade, CLI, FFI, examples and macro expansion.
