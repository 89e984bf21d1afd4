# A verified model of the scoped-cache and telemetry layer

This project models the code that audits a request's queries, keeps the response cache audited and its statistics
flowing, retries failed purges, flushes on deploy and coalesces reloads, with the lint rule that wraps test titles; and
proves what that code promises. `dafny verify dfyconfig.toml` checks all of it with Dafny 4.11.

Code that changes things step by step is modelled as classes and methods with loops, each proved against a function or a
predicate that says what it computes; the promises are then proved of those. Protocols between processes are state
machines: a step is one awaited call, a run any legal interleaving of steps, crashes and clock ticks included, and what
holds is proved of every run. Where something the code might be taken to promise is false, a lemma gives the run or the
input that shows it, and another says when it holds. Every lemma turns automatic induction off: its proof is its body.

| modules | what they model |
|---|---|
| `AuditJson`, `AuditJsonReader`, `QueryAuditItems`, `QueryAuditEntries`, `QueryAuditFormat`, `QueryAuditCuts`, `QueryAuditDetails`, `QueryAuditHeader`, `QueryAuditReading` | the query audit's header: printing and reading back, grouping, the three stages of cuts and the entries dropped last |
| `QueryAuditRecorder`, `QueryAuditRuns`, `QueryAuditLog`, `QueryAuditTimes`, `QueryAuditWaits`, `QueryAuditLevels`, `QueryAuditReport` | the recorder behind it, over any interleaving of statements, transactions and connections |
| `CacheLock`, `BuildIdentity`, `CacheAuditRuns` | the token lease and its two users |
| `CacheAuditQueue`, `CacheAuditJudge`, `JsonDiff`, `PinKeys` | the cache audit: the queue, the verdict, the diff and the pin comparison |
| `EventBuffer`, `StreamBatch`, `StreamDrain`, `StreamTables`, `EffectiveTtl` | cache events: the capture buffer, one batch, the drain, what it leaves in the tables, and the TTL replay |
| `PendingPurges`, `Fingerprints` | failed purges kept for a retry |
| `ReloadQueue` | extension reloads |
| `WordWrap` | the title-wrapping lint rule |
| `Options`, `Sequences` | what the others share |

What the proofs brought out, each stated as a lemma:

- a batch of the event buffer can hold one event more than the cap (`EventBuffer.EmptyBufferOverfills`), for each
  capture on a full buffer between a flight's end and its callback and for no other (`RunOverfills`);
- the verdict's retry reads body and sidecar in two reads, and can find an entry stale on an older fill's body
  (`CacheAuditJudge.RetryComparesOlderBody`; `StaleWasHeld` says exactly when the body is the held fill's);
- two locators of one key not filled yet leave a descriptor that depends on where the stream was split
  (`StreamBatch.AnyLocatorCanWin`), and nothing else does (`SplitDoesNotMatter`);
- a redelivered batch takes a descriptor and its pins back to an older fill (`StreamTables.SomeRunGoesBack`), exactly
  where a commit persists an older fill than the one in the table (`NewestUnlessGoesBack`, `RedeliveryRegresses`);
- a crash, or a throwing call, between acknowledging and deleting leaves an entry in the stream for good
  (`StreamDrain.SomeRunLeaks`, `LeakedForGood`), and nothing else does (`LeakedExactly`);
- a deploy inside another's flush is dropped (`BuildIdentity.LaterDeployDropped`), exactly if every instance of it is
  refused the lock by one of another build (`ServedUnlessOutrun`);
- a run whose claim went unanswered starts all the same, and its row can be closed under it
  (`CacheAuditRuns.UnansweredRunIsClosed`), exactly if the claim did not take the lock (`ClosedUnderUnlessClaimed`).

## Model

| member | source | states |
|---|---|---|
| `AuditJson.JoinedSize` | api/src/database/query-audit.ts:664-669 | A printed list is as long as its parts plus the commas between them, which the incremental size rests on. |
| `AuditJson.DigitsBelow` | api/src/database/query-audit.ts:1015-1022 | A number below 10^k prints in at most k digits. |
| `AuditJson.DigitsSucc` | api/src/database/query-audit.ts:1019-1022 | Counting one entry more prints at most one digit more, which is why keeping one entry more never saves room. |
| `AuditJson.PrintPrintable` | api/src/database/query-audit.ts:1039-1053 | Whatever text a value holds, control characters, quotes and any code point past the Basic Multilingual Plane included, its print is printable ASCII. |
| `AuditJson.EscapedAsLong` | api/src/database/query-audit.ts:1039-1053 | Printable ASCII prints as itself; a quote, a backslash and the five controls JSON has letters for take two characters, any other code unit six, a code point past the Basic Multilingual Plane twelve. |
| `AuditJsonReader.ValueReads` | api/src/database/query-audit.ts:1039-1053 | Whatever value is printed, a JSON reader gives that value again, keys in order and every escape and surrogate pair undone, and stops where it ends. |
| `AuditJsonReader.StringReads` | api/src/database/query-audit.ts:1039-1053 | A printed string reads back as its text. |
| `AuditJsonReader.PrintTellsValuesApart` | api/src/database/query-audit.ts:1039-1053 | Two values that print alike are the same value. |
| `QueryAuditReading.FormattedReads` | api/src/database/query-audit.ts:643-888 | Whatever audit is formatted, at any size: parsed as JSON, the header is one object that gives the request's amounts, the count of dropped entries and the entries shown, each under its key, timings only where asked, and nothing else; and each of those values gives its entry's outcome, error, times, statements and what each stage dropped, and each statement its text, count, time, wait, rows, error and bindings, in the same way. |
| `QueryAuditReport.HeaderSaysWhatCame` | api/src/database/query-audit.ts:804-828 | Over any legal run of the recorder, at every level and size, the value a header gives a shown entry says `commit` exactly if a COMMIT inside its own transaction was answered without error or ROLLBACK, `open` exactly while nothing ended the transaction, `rollback` exactly if it ended otherwise, and no outcome exactly where no BEGIN began it. |
| `QueryAuditReport.EntryIsLogged` | api/src/database/query-audit.ts:756-802 | At every level an entry's outcome, error, time and wait are those of the events; only `bindings` and `full` show a bound value, and `full` shows each run as it was. |
| `QueryAuditReport.TransactionIsOpenUntilOver` | api/src/database/query-audit.ts:486-540 | An entry a BEGIN began gets its outcome with its time: it is open exactly until its end, or a failed BEGIN, is answered. |
| `QueryAuditItems.MergedStatementItems` | api/src/database/query-audit.ts:895-932 | The loop over a map of items computes `Merged`: one item a statement, later items merged into the first one seen. |
| `QueryAuditItems.MergedIsByStatement` | api/src/database/query-audit.ts:889-899 | Grouping reports each statement once, under its own text, in first-seen order. |
| `QueryAuditItems.MergedConserves` | api/src/database/query-audit.ts:895-932 | Grouping conserves the totals of runs, times, waits, rows and, for uniform items, bound runs. |
| `QueryAuditItems.GroupTotals` | api/src/database/query-audit.ts:889-932 | A group's amounts are the sums over exactly its own items, its error their first one, its bound values theirs in order, and it has rows exactly where one of them has. |
| `QueryAuditFormat.HeaderSize` | api/src/database/query-audit.ts:660-669 | The header's length is the empty header's plus the list's exact size, and the size of the dropped field where there is one. |
| `QueryAuditFormat.PrefixSizesGrow` | api/src/database/query-audit.ts:1015-1037 | A longer prefix never takes less room, even where the dropped count loses a digit. |
| `QueryAuditFormat.KeptEntryCount` | api/src/database/query-audit.ts:1015-1037 | The count returned fits beside its dropped field, and one entry more would not. |
| `QueryAuditFormat.GreedyCountIsLongest` | api/src/database/query-audit.ts:1015-1037 | Where sizes only grow, stopping at the first prefix too long finds the longest prefix that fits. |
| `QueryAuditFormat.LongestPrefixIsLongest` | api/src/database/query-audit.ts:1011-1014 | The prefix kept fits unless it is empty, and every longer one does not. |
| `QueryAuditFormat.CutStageInPlace` | api/src/database/query-audit.ts:684-702 | One stage of in-place cuts gives the entries of the simple form, while the size kept by differences stays the real one. |
| `QueryAuditFormat.CutEntries` | api/src/database/query-audit.ts:684-702 | All three stages in place give the simple form's entries, and their exact sizes. |
| `QueryAuditFormat.FormatQueryAudit` | api/src/database/query-audit.ts:643-714 | The formatter that re-serialises only what changed returns, byte for byte, the header of the form that prints everything again at each cut. |
| `QueryAuditCuts.OrderIsLargestFirst` | api/src/database/query-audit.ts:995-1009 | A stage visits exactly the entries that hold its detail, largest first, earliest among equals. |
| `QueryAuditCuts.CutRemovesDetail` | api/src/database/query-audit.ts:937-993 | Once cut, an entry holds no more of that stage's detail. |
| `QueryAuditDetails.DetailIsAsPrinted` | api/src/database/query-audit.ts:937-978 | The size of an entry's detail is the length at which that detail prints, whether its items with every key, its bound values run by run, or the texts longer than their cut, in order; and 0 exactly where there is nothing to cut. |
| `QueryAuditDetails.CutCountsWhatItTook` | api/src/database/query-audit.ts:944-991 | What a cut says it dropped is the number of items grouped, of runs whose bound values went, of texts that were longer than their cut; and none is left. |
| `QueryAuditCuts.CutRestoresNothing` | api/src/database/query-audit.ts:937-993 | No cut of a later stage brings back a detail an earlier stage removed. |
| `QueryAuditCuts.CutConserves` | api/src/database/query-audit.ts:934-993 | Each of the three detail cuts conserves total runs, times, waits and rows, and leaves the transaction's own fields. |
| `QueryAuditCuts.StageIsMinimal` | api/src/database/query-audit.ts:690-702 | A stage cuts a first part of its order, each cut made while the header was still too large, and stops at the first that fits. |
| `QueryAuditCuts.StageExhausts` | api/src/database/query-audit.ts:684-706 | After a stage the header fits, or no entry holds the stage's detail. |
| `QueryAuditCuts.StageCutsOnce` | api/src/database/query-audit.ts:690-702 | A stage leaves every entry as it was or cuts it once. |
| `QueryAuditCuts.CutsAreStaged` | api/src/database/query-audit.ts:684-706 | No bindings go while an entry has groupable runs, no SQL is cut while bindings remain, and no entry is dropped while SQL is uncut. |
| `QueryAuditCuts.CutsConserve` | api/src/database/query-audit.ts:684-706 | However far the entries are cut, each keeps its total runs, times, waits and rows, its outcome and its wait. |
| `QueryAuditHeader.HeaderFits` | api/src/database/query-audit.ts:643-714 | For every audit and every size of at least 256 the header returned is no longer than that size. |
| `QueryAuditHeader.DroppedIsExact` | api/src/database/query-audit.ts:704-714 | At any size of at least 256: where entries are dropped at least one is, those kept fit beside the exact count of the others, every longer prefix runs over, and so does the whole. |
| `QueryAuditHeader.FormattedPrintable` | api/src/database/query-audit.ts:1039-1053 | The header is printable ASCII, so a header line can carry it. |
| `QueryAuditHeader.HeaderReadsBack` | api/src/database/query-audit.ts:660-668 | The header reads back as its own fields, the dropped count where there is one, and the kept entries. |
| `QueryAuditHeader.Format` | api/src/database/query-audit.ts:643-658 | The formatter over the request's own fields and entry values returns the specified header. |
| `QueryAuditRecorder.QueryAudit.AuditConnectionWait` | api/src/database/query-audit.ts:283-297 | A wait is added to the request's and kept as its connection's pending one, unless the audit is closed. |
| `QueryAuditRecorder.QueryAudit.CloseQueryAudit` | api/src/database/query-audit.ts:304-309 | Closing forgets waits, holds and open transactions, and keeps what was recorded. |
| `QueryAuditRecorder.QueryAudit.HoldConnection` | api/src/database/query-audit.ts:608-617 | One more hold on a connection, and the peak of connections held raised to the new count. |
| `QueryAuditRecorder.QueryAudit.ReleaseConnection` | api/src/database/query-audit.ts:619-628 | One hold less, and the connection out of the map with its last one. |
| `QueryAuditRecorder.QueryAudit.RecordStatement` | api/src/database/query-audit.ts:543-577 | An ordinary statement goes to the transaction open on its connection, or to an entry of its own, counted with its wait and bindings. |
| `QueryAuditRecorder.QueryAudit.StartOfKind` | api/src/database/query-audit.ts:484-577 | What a BEGIN, a COMMIT or ROLLBACK, another transaction keyword and an ordinary statement each start, and the finisher each returns. |
| `QueryAuditRecorder.QueryAudit.AuditStatementStart` | api/src/database/query-audit.ts:469-579 | The whole new state of a statement's start, and references into entries that stay valid. |
| `QueryAuditRecorder.QueryAudit.FinishStatement` | api/src/database/query-audit.ts:491-604 | The whole new state when the finisher is called, for each kind of finisher, also on an audit closed since. |
| `QueryAuditRuns.HeldExactlyWhileBusy` | api/src/database/query-audit.ts:606-628 | After any legal interleaving, `connectionHolds` is exactly the connections with a statement in flight or a transaction open, and `maxPoolConnections` exactly the peak of that set's size; so the map is empty once all has finished. |
| `QueryAuditRuns.RunFollows` | api/src/database/query-audit.ts:469-604 | After any legal run the recorder's finishers and open transactions are those the events themselves say are in flight and open. |
| `QueryAuditLog.RecordsWhatHappened` | api/src/database/query-audit.ts:469-604 | Every entry of the recorder, its start, wait, time, error and outcome, its statements and its runs, is what the log of events says: an ordinary statement under the transaction open on its connection at its start, or in an entry of its own. What the times are is `QueryAuditTimes`. |
| `QueryAuditLog.StartKeepsGrouping` | api/src/database/query-audit.ts:559-577 | Starting a run updates the per-statement audit to what grouping the longer run log gives. |
| `QueryAuditLog.AnswerKeepsGrouping` | api/src/database/query-audit.ts:579-604 | Answering a run updates the per-statement audit to what grouping the run log gives. |
| `QueryAuditLog.GroupingFinishedRuns` | api/src/database/query-audit.ts:559-602 | Once every run is answered, grouping the ordered run log gives exactly the statements kept incrementally: counts, times, waits, rows, bindings and order. |
| `QueryAuditLog.CommitsAreThoseAnswered` | api/src/database/query-audit.ts:523-540 | Over any legal run the record reads `commit` on an entry exactly if a COMMIT sent inside that entry's own transaction was answered without error and without the ROLLBACK tag; no later transaction of the connection counts. |
| `QueryAuditTimes.RunTimeIsPassed` | api/src/database/query-audit.ts:579-604 | Over any legal run, a recorded run has a time exactly once it was answered: its own start plus that time is its own answer, on the connection it was started on, where the clock did not go back; and its rows and error are those of that answer. |
| `QueryAuditTimes.EntryTimeIsPassed` | api/src/database/query-audit.ts:512-538 | Likewise an entry has a time exactly once it ended: what passed between its BEGIN and the answer of its end or of the BEGIN itself, or between the start and the answer of the statement that stands alone. |
| `QueryAuditTimes.DbMsIsPassedInStatements` | api/src/database/query-audit.ts:582-586 | The request's time in the database is the sum of what passed between the start and the answer of every ordinary statement answered, each once. |
| `QueryAuditWaits.WaitsAreAccounted` | api/src/database/query-audit.ts:283-297 | Over any run, waits reported, waits pending and waits overwritten or left unreported sum to `waitMs`, so the first two never exceed it. |
| `QueryAuditWaits.ClosedRecordsNothing` | api/src/database/query-audit.ts:299-309 | Whatever happens after closing, nothing more is started, held, waited for or opened. |
| `QueryAuditLevels.GroupedFullIsBindings` | api/src/database/query-audit.ts:756-802 | At level full, grouping the reported runs gives exactly the items that level bindings reports. |
| `QueryAuditLevels.LevelsAgree` | api/src/database/query-audit.ts:756-802 | Every level reports the same total runs, times, waits and rows of an entry, those of the log. |
| `CacheLock.LockStore.HoldScript` | api/src/cache-lock.ts:13-25 | The script's SET NX, GET and PEXPIRE together claim a free or lapsed lock, renew the token's own and refuse another's. |
| `CacheLock.LockStore.HoldInMemory` | api/src/cache-lock.ts:94-104 | The memory branch, run without interruption, has the answer and the next state of the script. |
| `CacheLock.LockStore.ReleaseScript` | api/src/cache-lock.ts:33-39 | A release frees the lock exactly while it names the token, and answers so. |
| `CacheLock.LockStore.ReleaseInMemory` | api/src/cache-lock.ts:123-129 | The memory branch of a release has the same next state. |
| `CacheLock.LockStore.Get` | api/src/cache-lock.ts:138-149 | The holder read is the token while it has not expired, and none after. |
| `CacheLock.HeldForItsTtl` | api/src/cache-lock.ts:6-25 | Over any run of claims, renewals, releases and waits, a token that holds the lock holds it until its TTL is up unless it releases it, and no other token is answered true meanwhile. |
| `CacheLock.ClaimHoldsForItsTtl` | api/src/cache-lock.ts:77-113 | From a claim answered true on, no claim by another token is, until the TTL is up. |
| `CacheLock.FreedForOthers` | api/src/cache-lock.ts:6-39 | And no longer: another token is answered true exactly once the TTL is up, or at once after a release. |
| `CacheLock.ReplacedChangesNothing` | api/src/cache-lock.ts:6-39 | A renewal or a release by a token that another has replaced changes nothing. |
| `BuildIdentity.StoredNamesFlushedBuild` | api/src/cache-build-identity.ts:132-135 | With any interleaving, throw, crash or lapse, the stored identity is the one the deploy began with or names a build whose flush has returned; and flushes started equal those recorded, failed and in flight. |
| `BuildIdentity.OneFlushAtATime` | api/src/cache-build-identity.ts:113-144 | With refreshes landing in time, at most one instance is under the lock or flushing, no flush is for the build already stored, and each identity written differs from the one it replaced. |
| `BuildIdentity.OneBuildFlushesOnce` | api/src/cache-build-identity.ts:174-196 | Replicas of one build start at most one flush more than those that failed. |
| `BuildIdentity.RestartNeverFlushes` | api/src/cache-build-identity.ts:170-172 | Instances of the recorded build never flush, whatever the clock does. |
| `BuildIdentity.DeployFlushesExactlyOnce` | api/src/cache-build-identity.ts:165-235 | When replicas of a new build boot and nothing fails, by the time all are done exactly one flush has run and the build is recorded. |
| `BuildIdentity.LapsedLockFlushesTwice` | api/src/cache-build-identity.ts:90-103 | A lock left to lapse under its flush lets the same build flush twice with none failed: the refresh is needed. |
| `BuildIdentity.LaterDeployDropped` | api/src/cache-build-identity.ts:174-188 | Two deploys inside one flush drop the later one, as the code accepts. |
| `BuildIdentity.ClaimsTake` | api/src/cache-build-identity.ts:116-144 | A claim, answered or not, and each refresh keep the lock for 30 000 ms unless another instance has it; only an answered claim that took it goes on. |
| `BuildIdentity.RereadDecides` | api/src/cache-build-identity.ts:186-194 | An instance that finds its build stored once it has the lock flushes nothing and frees the lock; any other starts a flush. |
| `BuildIdentity.ThrowFreesLock` | api/src/cache-build-identity.ts:132-144 | A flush that throws leads to a release that frees the lock; a throw before it leaves the lock to lapse. |
| `BuildIdentity.ServedUnlessOutrun` | api/src/cache-build-identity.ts:165-196 | Deploys of any number of builds with nothing thrown, lost or dead, once every instance is done: a build was found stored by one of its instances or recorded exactly if some instance of it was not refused the lock while one of another build held it; a build all of whose instances were refused so is never recorded. |
| `CacheAuditRuns.LiveRowIsNotClosed` | api/src/cache-audit-runs.ts:400-427 | In any interleaving the open row of a run that is alive and whose claim took the lock is ended by nothing but that run, or by a reap once twice its budget and 3 600 000 ms are past its start: no listing closes it. |
| `CacheAuditRuns.InTimeIsNotReaped` | api/src/cache-audit-runs.ts:481-504 | In any interleaving nothing but its own end, no reap either, ends the row of such a run while the clock is at most twice its budget and 3 600 000 ms past its claim. |
| `CacheAuditRuns.OverdueIsReaped` | api/src/cache-audit-runs.ts:481-504 | A reap ends an open row exactly if twice its own budget and 3 600 000 ms are past its start. |
| `CacheAuditRuns.ClaimsTake` | api/src/cache-audit-runs.ts:203-214 | A claim takes a lock no one holds for 120 000 ms and changes no other; a run starts if it took it or was not told, and counts as claimed exactly if it has it. |
| `CacheAuditRuns.RenewsAndReleases` | api/src/cache-audit-runs.ts:228-264 | A renewal takes the lock for 120 000 ms more, unless another has it; a release that lands gives it up, and changes no other. |
| `CacheAuditRuns.RunsEnd` | api/src/cache-audit-runs.ts:236-272 | A run left alone ends with its row finished and the lock free; one whose insert fails leaves no row, and one whose end cannot be written an open row, which is what a listing is for. |
| `CacheAuditRuns.ClosedUnderUnlessClaimed` | api/src/cache-audit-runs.ts:202-209 | After any run, the open row of a run that is alive can still be ended under it by a listing exactly if the claim of that run did not take the lock, whether or not the claim was answered: if it did not, any other run can die, the lock lapse and three listing steps end the row; if it did, no steps short of a reap end it while the run lives. |
| `CacheAuditRuns.OneRunAtATime` | api/src/cache-audit-runs.ts:186-272 | At most one run whose claim took the lock is alive at a time. |
| `CacheAuditRuns.OneStepSpares` | api/src/cache-audit-runs.ts:408-427 | One step from a safe state, claim, stamp, insert, renewal, release, crash or listing, leaves a live run's row as it was. |
| `CacheAuditRuns.StepKeepsSafe` | api/src/cache-audit-runs.ts:186-272 | Every step keeps the lock with the live run, rows no older than their claims, listings too early for later runs, and reaps to rows past their budget. |
| `CacheAuditRuns.DeadRowIsClosed` | api/src/cache-audit-runs.ts:400-427 | With the lock free, the listing's three steps end the row a dead run left open exactly if it is more than 5 000 ms old. |
| `CacheAuditRuns.UnansweredRunIsClosed` | api/src/cache-audit-runs.ts:202-209 | From the start: a run whose claim was lost on the way, and so neither landed nor was answered, starts all the same and has its row ended while it audits. |
| `CacheAuditQueue.DescriptorTable.ReadQueue` | api/src/cache-events.ts:1483-1536 | A page is as many due descriptors as asked, distinct, by verified time then fill time, none left out before one let in. |
| `CacheAuditQueue.PageIsToAudit` | api/src/cache-events.ts:1488-1520 | Column by column: every key of a page has a redis key, a fill before the run, no stamp since, nothing known gone, and the filter's user and collection where those are given; and every row with all of that is on the page unless the page is full. |
| `CacheAuditQueue.PageIsInOrder` | api/src/cache-events.ts:1522-1533 | A page goes by the last instant each entry is known right, the older fill first among equals, and nothing left off it comes before what is on it. |
| `CacheAuditQueue.Ask` | api/src/cache-audit.ts:246-278 | A round splits at most 500 due entries into those gone and those taken, all that is due where that is fewer and the limit leaves room. |
| `CacheAuditQueue.AdvancedLeaveQueue` | api/src/cache-events.ts:1623-1634 | Stamping keys no earlier than the run began takes exactly those keys out of its queue. |
| `CacheAuditQueue.RetiredLeaveQueue` | api/src/cache-events.ts:1636-1656 | Retiring takes a due key out of the queue exactly if it is one of the keys given and was not filled since the cache was asked; a fill brings it back exactly if it is older than the run. |
| `CacheAuditQueue.Sort` | api/src/cache-audit.ts:260-278 | A page splits into what the cache no longer holds and the first held entries the limit has room for. |
| `CacheAuditQueue.Round` | api/src/cache-audit.ts:246-307 | A page takes only entries not stamped since the run began, stamps them, and leaves the queue strictly smaller once late fills are in. |
| `CacheAuditQueue.AuditCache` | api/src/cache-audit.ts:212-326 | Beside a drain that fills and runs that stamp, the loop ends, examines no key twice and at most the limit, stops short of what is due only at the limit or the time, and left alone takes exactly the least recently verified. |
| `CacheAuditQueue.ExaminedAreToAudit` | api/src/cache-events.ts:1488-1520 | Left alone, every entry the loop examines is of the filter's user and collection, filled before the run and not audited since. |
| `CacheAuditQueue.ActionsKeepStamps` | api/src/cache-events.ts:1465-1470 | A row stamped since the run began stays out of the queue through any fills, stamps and retirements of others. |
| `CacheAuditQueue.EveryEntryIsExamined` | api/src/cache-events.ts:1456-1470 | Over n held entries with no refills and an advancing clock, any n / limit consecutive runs, rounded up, examine every entry. |
| `CacheAuditQueue.LeftGoesFirst` | api/src/cache-events.ts:1456-1470 | No run takes an entry a second time while one is left, so each run leaves `limit` fewer, or none. |
| `CacheAuditJudge.World.Judge` | api/src/cache-audit.ts:481-566 | The judge gives the verdict the timeline determines, in at most three replays. |
| `CacheAuditJudge.World.Compare` | api/src/cache-audit.ts:514-563 | The retry loop alone, over any snapshot with a body. |
| `CacheAuditJudge.World.Try` | api/src/cache-audit.ts:514-563 | One attempt gives the verdict, or the snapshot to try again on, that the timeline determines, and replays when it says. |
| `CacheAuditJudge.VerdictFollowsReplies` | api/src/cache-audit.ts:650-702 | Whatever the timeline: an entry is refused exactly if a replay the judge made is answered 403; it is judged on a body or on pins only where every replay was answered 200 to 299 with pins and a body that parses; any other answer leaves it unreplayable, for the reason of that answer. |
| `CacheAuditJudge.JudgedUnasked` | api/src/cache-audit.ts:481-512 | No replay is made exactly of an entry that is gone, cannot be read, is out of date or cannot be replayed: those are raced, unreadable, expired and unreplayable for their own reason. |
| `CacheAuditJudge.World.TakeSnapshot` | api/src/cache-audit.ts:573-621 | The page's body with its sidecar, or both read again in two reads where the body was gone. |
| `CacheAuditJudge.World.HasMoved` | api/src/cache-audit.ts:633-648 | Gone without a body, held without a fill time, and otherwise held exactly if the sidecar still says the same fill time. |
| `CacheAuditJudge.StaleWasHeld` | api/src/cache-audit.ts:514-563 | A diff-based stale verdict is given only if two replays agreed on what differs from the body compared, and the fill the sidecar named before the first replay is named again after it; the body compared is that fill's exactly if it is of the fill its own sidecar named, which it always is where both were read at once. |
| `CacheAuditJudge.UnmovedIsJudgedOnItsBody` | api/src/cache-audit.ts:514-563 | An entry nothing moves is never raced: it is stale exactly if a replay differs and a second agrees with it, time-varying, fresh or drifted exactly in the other cases. |
| `CacheAuditJudge.RetryComparesOlderBody` | api/src/cache-audit.ts:581-589 | A refill between the retry's two reads gets an entry found stale whose body is what every replay answered. |
| `JsonDiff.DiffPaths` | api/src/cache-audit.ts:887-923 | Each pointer pushed is of another place where the bodies differ, and below the cut-off every such place is pushed, in whatever order keys come. |
| `JsonDiff.DiffItems` | api/src/cache-audit.ts:892-905 | The same over two lists, of any lengths. |
| `JsonDiff.DiffFields` | api/src/cache-audit.ts:907-918 | The same over two records, with every key of either. |
| `JsonDiff.DiffChild` | api/src/cache-audit.ts:895-915 | An element one side misses is one difference; one both have is searched. |
| `JsonDiff.SomewhereUnlessEqual` | api/src/cache-audit.ts:887-923 | Two bodies differ at some place exactly if they are not equal. |
| `JsonDiff.GlobMatches` | api/src/cache-audit.ts:929-946 | The loop answers whether the glob stands for the segments: `*` for one, `**` for the rest. |
| `JsonDiff.Ignored` | api/src/cache-audit.ts:714-718 | A pointer is ignored exactly if some glob matches its segments. |
| `JsonDiff.Diff` | api/src/cache-audit.ts:704-712 | At most 20 pointers, each a real difference no glob covers; below 500 differing places a diff of fewer than 20 names every one no glob covers, so it is empty exactly when the bodies agree outside the globs, and without globs exactly when they are equal. |
| `JsonDiff.GlobsReadSegments` | api/src/cache-audit.ts:714-718 | Splitting a pointer on slashes gives back its segments, as long as no key holds a slash. |
| `JsonDiff.PointerNames` | api/src/cache-audit.ts:892-915 | A pointer names an element by the digits of its own position, and a field by its own name. |
| `PinKeys.SamePinKeys` | api/src/cache-audit.ts:872-877 | Sorted and de-duplicated, two pin lists compare equal exactly if they name the same pins. |
| `PinKeys.SortedKeepsPins` | api/src/cache-audit.ts:873-874 | De-duplicating and sorting keeps exactly the pins, in strictly increasing order. |
| `PinKeys.OneOrder` | api/src/cache-audit.ts:872-877 | A set of pins has one strictly increasing list. |
| `EventBuffer.CacheEventBuffer.Xadd` | api/src/cache-events.ts:438-463 | The whole new state of a capture: dropped behind a flight, pushed, flushed once full, or scheduled. |
| `EventBuffer.CacheEventBuffer.BeginFlush` | api/src/cache-events.ts:465-482 | The whole new state of a flush up to its await: nothing behind a flight, the buffer handed over otherwise. |
| `EventBuffer.CacheEventBuffer.EndFlight` | api/src/cache-events.ts:507-514 | The flight ends, with a callback chained where more was buffered. |
| `EventBuffer.CacheEventBuffer.Settle` | api/src/cache-events.ts:465-515 | With no more events, ending the flight and running one callback hands over all that is buffered, in order, and drops nothing. |
| `EventBuffer.StepKeepsAwake` | api/src/cache-events.ts:427-515 | Every step keeps the buffer within its cap, a flight or a callback while it holds anything, and batches of at most one over the cap. |
| `EventBuffer.RunLosesNothing` | api/src/cache-events.ts:427-515 | Over any run the batches handed over followed by the buffer are the accepted events in order, and accepted and dropped are all that was captured. |
| `EventBuffer.HandsOver` | api/src/cache-events.ts:507-514 | Wherever a run stands, no wake-up is lost: one callback after the flight empties the buffer. |
| `EventBuffer.OneOverTheCap` | api/src/cache-events.ts:438-463 | A step hands over a batch longer than the cap exactly if it is a capture on a full buffer with no flight in progress; the batch is then the buffer and that event. |
| `EventBuffer.RunOverfills` | api/src/cache-events.ts:438-515 | Over any run the batches longer than the cap are as many as those captures. |
| `EventBuffer.EmptyBufferOverfills` | api/src/cache-events.ts:438-515 | From the empty buffer, any 2001 events have a run that hands over a first batch of 1000 and a second of 1001. |
| `StreamBatch.Database.PersistBatch` | api/src/cache-events.ts:1003-1241 | A batch demultiplexed and written in one transaction leaves the logs grown by its entries, each filled key described by its last fill under exactly that fill's pins, audited as before, and locators only where nothing describes the key. |
| `StreamBatch.Demultiplex` | api/src/cache-events.ts:1009-1156 | The maps filled along the batch hold the last fill and the last locator of each key, and the last fill's de-duplicated pins. |
| `StreamBatch.ReplacePins` | api/src/cache-events.ts:1202-1223 | A refilled key has exactly its new pin rows, every other key those it had. |
| `StreamBatch.PurgePinsAreRows` | api/src/cache-events.ts:1056-1083 | Every pin a purge dropped has a row in order, under the purge's own id and time and the collection before the pin's slice; a purge of a whole collection has one more for that collection. |
| `StreamBatch.EntryPinsAreRows` | api/src/cache-events.ts:1130-1142 | So has every pin a key was filled under. |
| `StreamBatch.BatchesLeaveLastFill` | api/src/cache-events.ts:1098-1143 | However an in-order stream is split, each filled key ends with the descriptor and the pins of its last fill; a locator never overwrites a fill. |
| `StreamBatch.BatchesLeaveLogs` | api/src/cache-events.ts:1158-1200 | However it is split, events, anomalies, purges and purge pins are those of the whole stream in order. |
| `StreamBatch.SplitDoesNotMatter` | api/src/cache-events.ts:1158-1225 | Two splits of one stream agree on every log, every key's pins, and the descriptor of every key filled in it or described before. |
| `StreamBatch.AnyLocatorCanWin` | api/src/cache-events.ts:1121-1125 | For a key with neither fill nor row the split does matter: each of its locators describes it under some split. |
| `StreamDrain.StepKeepsInvariant` | api/src/cache-events.ts:859-963 | Every step of any node keeps undone entries in the stream and pending, batches in hand in order and handed out, settled ones done and acknowledged ones no longer pending. |
| `StreamDrain.NothingIsLost` | api/src/cache-events.ts:923-963 | With any number of nodes crashing at any step, an entry neither committed nor logged is in the stream, unread or pending for any node to reclaim. |
| `StreamDrain.PendingGoesThrough` | api/src/cache-events.ts:923-963 | An entry pending for a minute goes through with any idle node: reclaimed, committed, acknowledged and deleted. |
| `StreamDrain.RolledBackGoesThrough` | api/src/cache-events.ts:1226-1240 | A batch whose transaction fails is logged, acknowledged and deleted, and commits nothing. |
| `StreamDrain.HandsOut` | api/src/cache-events.ts:859-963 | A node is handed what comes next in the stream, up to 500 entries, or up to 500 pending for 60 000 ms or more; each is then pending from now. |
| `StreamDrain.LeakedExactly` | api/src/cache-events.ts:1237-1240 | Over any run: an entry is settled, still in the stream and in no node's hands exactly if, of the nodes that had acknowledged it, the last was cut off before deleting it, by a crash or by a call that threw, and no node it was handed to earlier still holds it or deleted it. |
| `StreamDrain.StepOrphans` | api/src/cache-events.ts:1237-1240 | A step leaves an entry acknowledged, in the stream and with no node that acknowledged it exactly if it crashes, or ends the drain of, the only such node. |
| `StreamDrain.LeakedForGood` | api/src/cache-events.ts:1237-1240 | Such an entry stays so whatever the nodes do. |
| `StreamDrain.SomeRunLeaks` | api/src/cache-events.ts:1237-1240 | From an empty stream, a crash as well as a throwing delete reach such a state. |
| `StreamTables.PurgesAreThoseCommitted` | api/src/cache-events.ts:2574-2583 | Whatever crashes and is redelivered, the distinct rows of the purge table a run leaves are exactly the purges of the committed entries. |
| `StreamTables.RedeliveryAddsNoPurge` | api/src/cache-events.ts:2574-2583 | Committing a batch again adds no distinct purge row. |
| `StreamTables.DescribedByLastCommit` | api/src/cache-events.ts:1166-1219 | Whatever crashes and is redelivered, a run leaves each key described by the fill, and under exactly the pins, of the last committed batch that fills it; a key none fills has no pins and at most a locator's row. |
| `StreamTables.NewestUnlessGoesBack` | api/src/cache-events.ts:1166-1171 | A key is described by its newest committed fill all along a run exactly if no commit of the run persists an older fill of it than the one that describes it. |
| `StreamTables.RedeliveryRegresses` | api/src/cache-events.ts:1166-1219 | A batch persisted again after a newer one leaves a key's row as the newer left it exactly if their last fills describe it alike and are of one date, and its pins exactly if they have the same ones; a key it does not fill keeps row and pins. |
| `StreamTables.SomeRunGoesBack` | api/src/cache-events.ts:923-963 | From an empty stream, a node that dies between its commit and its acknowledgement has the run end with the key described by the older fill and its pins. |
| `PendingPurges.PendingRows` | api/src/scoped-cache-pending-purges.ts:98-146 | A purge by mode is one row; one by slices keeps exactly the fingerprints of the collections within the cap, once each, and has one row for exactly each collection over it. |
| `PendingPurges.Group` | api/src/scoped-cache-pending-purges.ts:111-119 | Fingerprints by collection, in order, the collections each once. |
| `PendingPurges.RecordCovers` | api/src/scoped-cache-pending-purges.ts:98-146 | Every fingerprint of a failed purge is kept or its collection purged whole, the latter exactly if that collection is over the cap. |
| `PendingPurges.ListPending` | api/src/scoped-cache-pending-purges.ts:148-208 | One entry a target, in the order targets first appear, with its rows' ids in order and their fingerprints once each. |
| `PendingPurges.ListedUnderTarget` | api/src/scoped-cache-pending-purges.ts:174-184 | An entry's ids are exactly those of the rows of its target. |
| `PendingPurges.EveryRowListed` | api/src/scoped-cache-pending-purges.ts:160-208 | Every row's id is under its own target. |
| `PendingPurges.ListedOnce` | api/src/scoped-cache-pending-purges.ts:160-208 | No id is under two entries: the list partitions the rows. |
| `PendingPurges.ListCovers` | api/src/scoped-cache-pending-purges.ts:148-208 | Whatever fingerprint the rows cover, the list covers, as long as its collection has a name. |
| `PendingPurges.ListAddsNothing` | api/src/scoped-cache-pending-purges.ts:186-195 | A listed fingerprint was recorded for that target, and is listed once. |
| `PendingPurges.PendingTable.Record` | api/src/scoped-cache-pending-purges.ts:44-96 | The rows of a failed purge are added under new ids, nothing else changed. |
| `PendingPurges.PendingTable.Clear` | api/src/scoped-cache-pending-purges.ts:210-221 | Clearing in chunks removes exactly the rows with the ids given. |
| `PendingPurges.LaterRowsSurvive` | api/src/scoped-cache-pending-purges.ts:210-221 | A row recorded after a listing survives every clear of ids listed until then. |
| `PendingPurges.RecordedAfterListingIsRetried` | api/src/scoped-cache-pending-purges.ts:44-221 | A purge that failed after a listing outlives the clears of what was listed, and the next listing retries each of its fingerprints or its collection. |
| `Fingerprints.CollectionRoundTrips` | api/src/scoped-cache/fingerprint.ts:132-187 | A rendered fingerprint names the collection it was rendered for, whatever reserved characters that holds. |
| `Fingerprints.PlainCollectionReads` | api/src/scoped-cache/fingerprint.ts:170-180 | A fingerprint with no body names what comes before its first colon, or all of it. |
| `Fingerprints.UnescapeUndoesEscape` | api/src/scoped-cache/fingerprint.ts:38-54 | Unescaping a token undoes escaping it. |
| `ReloadQueue.ExtensionManager.Reload` | api/src/extensions/manager.ts:446-532 | The whole new state of a call and the promise it hands out: the queued reload's, or a new one queued, started at once where none runs. |
| `ReloadQueue.ExtensionManager.Enqueue` | api/src/utils/job-queue.ts:12-18 | A job is pushed, and started in the same call where the queue is idle. |
| `ReloadQueue.ExtensionManager.StartJob` | api/src/extensions/manager.ts:517-522 | The front job takes the options asked for and clears the queued reload. |
| `ReloadQueue.ExtensionManager.LoopOn` | api/src/utils/job-queue.ts:20-33 | The loop starts the next job, or stops. |
| `ReloadQueue.StepKeepsSound` | api/src/extensions/manager.ts:446-532 | Every step keeps each promise called before it starts, started with all that was asked of it, and settled after that. |
| `ReloadQueue.CallIsServed` | api/src/extensions/manager.ts:447-457 | The job of a caller's promise starts after the call, with at least the options the caller asked for. |
| `ReloadQueue.OptionWasAsked` | api/src/extensions/manager.ts:447-457 | A job starts with an option exactly if one of its earlier callers asked for it. |
| `ReloadQueue.SettlesOnce` | api/src/extensions/manager.ts:461-529 | A promise settles at most once. |
| `ReloadQueue.EveryReloadIsServed` | api/src/extensions/manager.ts:446-532 | After any run, at most one job waits, every promise has started and settled at most once in that order, and exactly once when the queue is idle. |
| `ReloadQueue.QueueGetsIdle` | api/src/utils/job-queue.ts:20-33 | From any state two rounds of the loop end with the queue idle. |
| `WordWrap.WrapStringLiteral` | eslint-rules/string-literals-max-len.js:126-152 | The loop that packs words computes the packed lines, under the indentation and in the tag. |
| `WordWrap.VisualWidth` | eslint-rules/string-literals-max-len.js:100-106 | The width is the number of characters, tabs counted at their own width. |
| `WordWrap.LengthCounts` | eslint-rules/string-literals-max-len.js:139-139 | A length counts each character once, and each past the Basic Multilingual Plane twice. |
| `WordWrap.OnePass` | eslint-rules/string-literals-max-len.js:129-129 | The three replaces come to one pass that escapes each backslash, backtick and `${`. |
| `WordWrap.CookUndoesEscape` | eslint-rules/string-literals-max-len.js:121-129 | Decoding the template's escapes gives the text back. |
| `WordWrap.LinesLaid` | eslint-rules/string-literals-max-len.js:132-148 | The lines lay out all the words in order, each line of more than one word within the budget, and none but the last with room for the next word. |
| `WordWrap.GreedyIsFewest` | eslint-rules/string-literals-max-len.js:126-148 | No lines of the same words that fit are fewer than the greedy ones. |
| `WordWrap.LinesFitTheCap` | eslint-rules/string-literals-max-len.js:126-150 | Every line is within the column cap, its indentation included, or is one word. |
| `WordWrap.WrapRoundTrips` | eslint-rules/string-literals-max-len.js:108-152 | Whatever text is wrapped, reading the literal back gives the text collapsed and trimmed, and so the text itself exactly if it is single-spaced. |
| `WordWrap.WrapIsStable` | eslint-rules/string-literals-max-len.js:108-152 | What was read back wraps alike however often it is wrapped again, and a single-spaced text from the first time on. |
| `WordWrap.WrappedIsWhole` | eslint-rules/string-literals-max-len.js:128-129 | Whatever text is wrapped, it is one template: nothing in it ends the template or opens a substitution. |
| `EffectiveTtl.EffectiveTtlByBucket` | api/src/cache-events.ts:2349-2381 | Each bucket holds what the last change before it closes set, or the seed before any: the two-pointer pass equals looking every bucket up. |
| `EffectiveTtl.OrderedLatest` | api/src/cache-events.ts:2365-2365 | Sorting the changes stably does not change which is the latest before any end. |
| `EffectiveTtl.LatestIsOneOf` | api/src/cache-events.ts:2350-2358 | The change in force is one of those before the end, and none before it is later. |
| `EffectiveTtl.ClosedInOrder` | api/src/cache-events.ts:2370-2372 | Buckets in order close where the next one begins, the last at the window's end. |
| `EffectiveTtl.BucketTakesIn` | api/src/cache-events.ts:2365-2381 | A bucket takes in exactly the changes before the next bucket begins, and all of them if it is the last; listed out of order, also those of the buckets listed before it. |

## Left out

- QueryAuditHeader.HeaderFits: the request's numbers and its count of entries are below 10^21, since JavaScript prints a larger number in exponent form.
- AuditJsonReader.ValueReads: a number that is not written in digits alone is taken as the text JavaScript writes for it, and read back as that text.
- QueryAuditLevels.LevelsAgree: says nothing of the `error`, since items merged by statement first and by cut statement later can keep another first error.
- CacheLock.LockStore.HoldInMemory: a read then a write with no other call between; the source awaits between the two, so interleaved calls of one process are not modelled.
- BuildIdentity.DeployFlushesExactlyOnce: time is one clock shared by all instances and Redis, and the budget a boot waits for its flush is not modelled, since it frees the boot and not the flush.
- CacheAuditRuns.LiveRowIsNotClosed: one clock for all processes, locks not cleared, and no row old enough for retention to delete it.
- CacheAuditQueue.AuditCache: no other run's stamp is older than the run, no descriptor is deleted while it goes on, and the drain sooner or later has no fill left from before it.
- CacheAuditJudge.StaleWasHeld: that one sidecar dates one fill is a premise; two fills in one millisecond would share their date.
- JsonDiff.Diff: numbers are reals, and a record has its own keys only. The source asks `in`, which sees the prototype too: `{"__proto__": {}}` against `{}` gives no pointer there and one here. The two agree where no record has an own key `__proto__` that the record beside it lacks. Above 500 differing places nothing is claimed of an empty diff, as the source says.
- StreamDrain.NothingIsLost: trimming the stream past its maximum length is not modelled.
- PendingPurges.ListCovers: a collection named by the empty string shares its target with a null one, and the list then names only the first of the two.
- WordWrap.WrapRoundTrips: a text is a list of code points, so lone surrogates are not modelled.
- Recognising the kind and the table of a statement in its SQL: both are taken as part of the statement.
- Times are integers of milliseconds; rounding and fractions are not modelled.
- Knex, Redis, Keyv, pg and HTTP are tables, an atomic store with expiry, and answers the environment chooses.
- The findings, counts and evictions of an audit report, anomalies and their throttle, and the request a replay rebuilds.
- Reading the statistics back: timeseries, percentiles, listings of purges, and `listPurgesCoveringEntry`'s limit of 50.
- The scoped cache's index, its purge and the drain that retries pending purges.
- Loading and unloading extensions: a reload job is a call that settles well or badly.
- The pins and the view of a fingerprint; only its collection is modelled.
- Reporting, import injection and option handling of the lint rule.
- Controllers, middleware, settings, migrations, the CLI and the app: wiring with nothing hard to prove.
