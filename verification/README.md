# apitap change capture, modelled and proved in Dafny

apitap copies changes from Postgres and MySQL into Postgres, MySQL, ClickHouse,
BigQuery, Iceberg and object stores. A drain reads a source's log in windows,
collapses each window per table, lands it, and moves a watermark. Runs crash
between any two statements, replay windows that are cut differently the second
time, and meet each other on one destination table.

This project models those protocols as the Rust engine codes them and proves
what they are for: a landed window is the source's window, whatever died before;
a change log holds every event exactly once; two runs that may not share a table
never both write it.

`dafny verify dfyconfig.toml` checks everything.

| file | what it models |
|---|---|
| `Rows.dfy`, `Tail.dfy` | row images, keys, elementary changes, the split of a window into set phases and an ordered tail |
| `Collapse.dfy` | the collapser: a class updated change by change, and what its window lands |
| `Deferred.dfy` | windows of tables with a deferrable key, as bags of rows |
| `Resolve.dfy` | the window folded to one image per key, and BigQuery's MERGE |
| `SourceLaw.dfy` | what a source's own table guarantees of its changes, kept by the collapsed window |
| `OltpTail.dfy`, `OltpLimits.dfy` | the tail on Postgres and MySQL: refusals, and a window met again; the windows that cannot be |
| `Journal.dfy`, `Landing.dfy`, `LandingMisses.dfy`, `LandingLimits.dfy`, `LandingProgress.dfy` | the tail on ClickHouse: readback, journal, DELETE, INSERT, with crashes and moved window ends |
| `Drained.dfy` | the chain end to end: changes, log, sealed window, landed table |
| `Tombstones.dfy`, `TombstoneLimits.dfy`, `TombstonesProgress.dfy` | ClickHouse's insert-only path, statement by statement, under `FINAL` and background merges; what moves do to it |
| `Replay.dfy`, `Changelog.dfy`, `ChangelogProgress.dfy` | the replay plan, the run's memo, and the append-only log over whole histories |
| `CurrentView.dfy` | the `__current` view |
| `Group.dfy` | tables sharing one slot |
| `Guard.dfy`, `GuardProgress.dfy`, `Catalog.dfy` | announce, scan, lease, claim and fence on a row-locking store; one catalog with many tables |
| `LeaseVersions.dfy`, `LeaseLimits.dfy` | the lease as row versions on ClickHouse, and the units whose statements carry the test |
| `StateTable.dfy` | BigQuery's state compaction |
| `Iceberg.dfy` | commits whose answer is lost |
| `Naming.dfy` | artifact names and the token's base-36 time |
| `Workloads.dfy`, `Digests.dfy` | the generated change streams with a closed form, and the digest they are compared by |

Protocols are state machines: a step is one statement or one round trip, `Next`
is every step any party may take, `History` is any sequence of them, and the
results are about every state of every history. The `Progress` files, and the
like in the other machines, say that the steps also get somewhere: from every
state of every history a run can be carried to its end. The destination's clock only
ever advances, and ClickHouse's `dateDiff` counts the second boundaries between
two times. A step whose answer may be lost is a step of its own.

Where the code and its documentation differ, the code is followed. The
repository's README (README.md:388-391) describes a changelog as at-least-once;
the code, its module documentation and the end-to-end legs make it exactly once.
The stress writer's comment calls `kt` a per-table index; it is the session's
counter, shared by the session's tables.

## What turned out not to hold

Seven promises fail for some inputs. Each has a lemma with the input, and the
condition under which it holds.

- A window of a table with a deferrable key loses a row when the last image
  written at a key is taken by a DELETE, or by an old image that looks the same,
  although a row still stands there (`SwapOfEqualRowsLosesOne`); it is right for
  every other window (`DeferredWindowExact`, both directions).
- A BigQuery window merged again over its own result changes rows exactly when a
  key a holed row left holds other out-of-line values (`SourceMergeAgain`, both
  directions; input `ReusedKeyCorrupts`).
- A tail landed again on Postgres or MySQL over its own result can be refused
  (`InsertedThenMovedIsRefused`, `WrittenThenMoved`, `FreedKeyTakenByMove`,
  `MovedOntoDeleted`, `MovedOntoDeletedInTail`), and can even undo a swap without
  a refusal (`SwapUndone`). `WindowReapplied` gives a condition on the window
  under which it never does either; each of its five parts has an input above.
  No condition on the window alone is exact: the swap that is undone stands when
  the two rows are equal (`SwapOfEqualsStands`).
- A ClickHouse run that ends short of a TRUNCATE a dead, longer attempt already
  ran can be refused (`ShortRunRefused`), or pass a move over and commit without
  the row (`ShortRunLosesRow`); on a replay it is refused for a move too
  (`ReplayRefused`). Told from what the store held when the run began,
  it happens if and only if the row that some change is the first to read is
  neither there nor journalled (`RunMissesExactly`); that takes such a TRUNCATE
  (`NeverRefused`), and never meets a run that reaches as far as every attempt
  before it (`FullReachNeverRefused`).
- On the insert-only path the tail is said never to tie with the set phases. A
  move does not clear the key it goes to, so it ties if and only if those phases
  wrote something else there (`MoveTies`; input `MovedOntoTombstone`), and, after
  a recut, with what a longer attempt left (`RecutTies`). FINAL then depends on
  which version was inserted last. Without moves it never does: `FinalIsSource`.
- A statement on ClickHouse is said to end before any peer can claim the lease. A
  collector counts the life left in whole seconds, so its check can succeed in
  the last second of a statement (`EarlyClaimHappens`); and a late renewal can
  land between a check and its claim (`StaleClaimHappens`). It happens in no
  other case (`ClaimMeetsStatement`, `ClaimLandsOnStatement`,
  `CleanClaimExcludes`); what follows a claim is at most the statement executing
  then, for half a lifetime (`EvictedForEver`).
- A changelog watermark put back between its newest attempt and itself appends
  events twice unless the table has none there. From where the log began on,
  every rewind is safe (`RewindKeeps`), refused (`BehindRefuses`) or duplicates
  (`UnsafeRewindDuplicates`). Below that a rewind is refused once a marker has
  been written, and before it is not noticed (`RewindBelowOrigin`).

## Model

| member | source | states |
|---|---|---|
| Rows.UnchangedKeyIsOld | crates/apitap-core/src/logbased/collapse.rs:96-118 | a new image whose key columns came out of line gets the old image's, column by column, and no other cell changes; all of them out of line is the old key |
| Rows.KeyOf | crates/apitap-core/src/logbased/collapse.rs:253-284 | the key is read column by column; it is refused exactly when some key column has no text value, and the refusal is about the first such column and says whether it is missing or out of line |
| Tail.SetPhaseIsReplay | crates/apitap-core/src/logbased/dest_pg.rs:290-372 | deleting the deleted and the written keys and then inserting the last images is the same as those changes one by one |
| Tail.SplitIsReplay | crates/apitap-core/src/logbased/collapse.rs:8-18 | running the set phases first and the ordered tail last gives the table of the window in its original order |
| Collapse.Collapser.Insert | crates/apitap-core/src/logbased/collapse.rs:302-331 | an insert moves what the collapser stands for by exactly that image, or is refused and changes nothing but the count |
| Collapse.Collapser.UpdateImage | crates/apitap-core/src/logbased/collapse.rs:340-475 | an update, key-changing, masked or neither, moves what the collapser stands for by exactly that update, including the deferred-duplicate branch |
| Collapse.Collapser.PutDelete | crates/apitap-core/src/logbased/collapse.rs:497-515 | a delete leaves only the delete of a queued image, and follows a sticky key into the tail |
| Collapse.Collapser.DeleteRow | crates/apitap-core/src/logbased/collapse.rs:477-482 | a delete by its old image, refused when the identity cannot be read |
| Collapse.Collapser.TruncateTable | crates/apitap-core/src/logbased/collapse.rs:484-492 | a TRUNCATE forgets everything collected so far and is remembered |
| Collapse.Collapser.Finish | crates/apitap-core/src/logbased/collapse.rs:523-542 | the sealed window: each deleted key once, exactly one row per surviving key, the tail with its commit positions |
| Collapse.CollapseWindow | crates/apitap-core/src/logbased/collapse.rs:1-18 | for every window and every table: refused exactly when some identity cannot be read, and otherwise landing the collapsed window leaves what replaying its changes one by one leaves |
| Collapse.CollapsedIsReplay | README.md:345-357 | truncate, deletes, images and tail in this order equal the window replayed in the source's order |
| Deferred.DeferredWindowExact | crates/apitap-core/src/logbased/collapse.rs:389-417 | for a deferrable key with full old images, TRUNCATEs included, the landed row under a key is right if and only if it is not the case that a row stands there after the last image written there was taken by a DELETE or by an identical old image |
| SourceLaw.CollapsedIsLawful | crates/apitap-core/src/logbased/collapse.rs:127-132 | whatever window the source could log, its collapsed tail, run over the set phases, finds every row it needs and every key it moves to free |
| Deferred.SwapOfEqualRowsLosesOne | crates/apitap-core/src/logbased/collapse.rs:389-417 | two equal rows that swap keys in one statement: one is lost |
| Resolve.ResolveWindow | crates/apitap-core/src/logbased/resolve.rs:133-251 | the fold yields every key the window touched exactly once, with its final image, its holes or its delete |
| Resolve.MergeIsSourceReplay | crates/apitap-core/src/logbased/dest_bq.rs:1239-1330 | for every window the source could log, over the table it logged it for, one MERGE that reads each hole from the target before it leaves the source's replay |
| Resolve.SourceMergeAgain | crates/apitap-core/src/logbased/dest_bq.rs:1332-1369 | merged again over the source's table after it, a window is never refused, and changes nothing if and only if no key a holed row left holds other out-of-line values |
| Resolve.ReusedKeyCorrupts | crates/apitap-core/src/logbased/dest_bq.rs:1332-1369 | a key a row left and a new row took: merged again, the moved row takes the new row's body |
| OltpTail.DeletedLater | crates/apitap-core/src/logbased/collapse.rs:714-735 | the backward pass marks exactly the changes whose row a later change of the window takes away |
| OltpTail.WindowIsReplay | crates/apitap-core/src/logbased/dest_pg.rs:374-515 | for every window the source could log, over the table it logged it for, no statement is refused and the set phases and the tail leave the source's replay |
| OltpTail.RefusedExactly | crates/apitap-core/src/logbased/dest_pg.rs:483-511 | the tail is refused if and only if some statement, over what those before it left, misses a row nothing later excuses or moves onto a taken key |
| OltpTail.MissingRowRefused | benchmarks/e2e_masked_then_delete.py:3-16 | a masked update that names a column to set, of a missing row that the window neither deletes nor moves away, refuses the window; one that names none is passed over |
| OltpTail.WindowReapplied | crates/apitap-core/src/logbased/dest_pg.rs:474-511 | a window with a TRUNCATE, or whose moved rows predate it, whose freed keys are not written again and whose moves land on no freed key, landed again on the source's table after it, is not refused and changes nothing |
| OltpTail.InsertedThenMovedIsRefused | crates/apitap-core/src/logbased/dest_pg.rs:441-479 | a window that inserts a row and then moves it is refused when landed again |
| OltpLimits.WrittenThenMoved | crates/apitap-core/src/logbased/dest_pg.rs:441-479 | so is one whose tail writes the row whole before it moves it |
| OltpLimits.FreedKeyTakenByMove | crates/apitap-core/src/logbased/dest_pg.rs:474-476 | so is one that moves a row to a key another row left |
| OltpLimits.MovedOntoDeleted | crates/apitap-core/src/logbased/dest_pg.rs:486-511 | so is one that moves a row to a key its delete phase freed |
| OltpLimits.MovedOntoDeletedInTail | crates/apitap-core/src/logbased/dest_pg.rs:486-511 | so is one that moves a row to a key its tail freed |
| OltpLimits.SwapUndone | crates/apitap-core/src/logbased/dest_pg.rs:474-476 | a swap through a third key, landed again, is not refused and is undone |
| OltpLimits.SwapOfEqualsStands | crates/apitap-core/src/logbased/dest_pg.rs:474-476 | the same window over two equal rows, landed again, changes nothing |
| Journal.NameIsStable | crates/apitap-core/src/logbased/dest_ch.rs:973-1012 | a tail change has one journal name whatever window it lands in |
| Journal.NamesDiffer | benchmarks/e2e_ch_journal_window.py:3-18 | two changes never share a journal name, so an image is reused only by its own change |
| Journal.OrdinalInTail | crates/apitap-core/src/logbased/dest_ch.rs:998-1012 | counting over the landed tail or over the whole window gives the same ordinal |
| Drained.SealedIsLanded | crates/apitap-core/src/logbased/dest_ch.rs:764-870 | wherever the source's log is cut, what the collapser seals for the window is exactly what the landing machine's set phases and tail land |
| Drained.DrainedIsReplay | README.md:345-357 | end to end: for every stream of changes the source could log, whatever runs died and however the windows were cut, a commit that has reached every attempt leaves the changes replayed one by one |
| Landing.MissReadsSource | crates/apitap-core/src/logbased/dest_ch.rs:1055-1097 | a tail change that misses the journal reads back exactly the row the source had at that change, however many attempts died before |
| Landing.NextKeeps | crates/apitap-core/src/logbased/dest_ch.rs:965-1270 | every statement of every run, every crash and every recut keeps what recovery needs: off the touched keys the table is the source's, and a key whose first change reads it is journalled or intact |
| Landing.CommittedIsSource | benchmarks/e2e_ch_residue_crash.py:4-24 | the first window committed at or past everything any attempt reached leaves the source's table |
| Landing.CommittedShort | benchmarks/e2e_ch_journal_window.py:3-18 | a window committed short of a dead attempt leaves the source's row at every key the log does not touch between the two |
| Landing.NeverRefused | crates/apitap-core/src/logbased/dest_ch.rs:1075-1081 | a run is refused or passes a move over only if a longer attempt died after a TRUNCATE that run does not reach |
| LandingMisses.MissExactly | crates/apitap-core/src/logbased/dest_ch.rs:1062-1081 | at the statement: a run that has missed nothing yet misses at the change at hand if and only if, when the run began, neither the row nor an image of it was there and no earlier change of the window touches its key |
| LandingMisses.RunMissesExactly | crates/apitap-core/src/logbased/dest_ch.rs:1219-1236 | over a whole run, trusted or not: it is refused or passes a move over before it can commit if and only if some change of its window was so when it began |
| LandingMisses.MissDecides | crates/apitap-core/src/logbased/dest_ch.rs:1219-1236 | at such a change a run can go on if and only if the change is a move and the journal held nothing of a change not committed when the run began |
| LandingMisses.CommitPassedOver | crates/apitap-core/src/logbased/dest_ch.rs:1219-1236 | so a run that commits although a change of its window was so: the first such change is a move, and the run was no replay |
| LandingProgress.RunRecovers | benchmarks/e2e_ch_residue_crash.py:4-24 | from every state of every history, whatever died there, a run that reaches as far as every attempt before it can be carried to its commit, and the table is then the source's |
| LandingLimits.ReplayRefused | crates/apitap-core/src/logbased/dest_ch.rs:1219-1230 | on a replay, for a masked update and for a move: a history after which no step gets the run past the change |
| LandingLimits.ShortRunRefused | crates/apitap-core/src/logbased/dest_ch.rs:1075-1081 | that happens: a history in which a masked update refuses the short run |
| LandingLimits.ShortRunLosesRow | crates/apitap-core/src/logbased/dest_ch.rs:1219-1236 | and one in which the short run passes a move over and commits without the row |
| LandingLimits.FullReachNeverRefused | benchmarks/e2e_ch_residue_crash.py:4-24 | a run that reaches as far as every attempt before it is never refused and passes nothing over |
| Tombstones.MissReadsSource | crates/apitap-core/src/logbased/dest_ch.rs:1055-1070 | a masked update that misses the journal reads, with FINAL, exactly the row the source had, however many attempts died before |
| Tombstones.FinalIsSource | benchmarks/e2e_ch_insert_only.py:3-8 | whatever attempts died, at whatever statement of the set phases or the tail, however windows were recut and whatever parts merged, once the watermark is past every attempt FINAL answers the source's row for every key |
| Tombstones.NeverRefused | crates/apitap-core/src/logbased/dest_ch.rs:1075-1081 | a masked update is refused only if a longer attempt died after a TRUNCATE this run does not reach |
| TombstonesProgress.RunRecovers | benchmarks/e2e_ch_insert_only.py:3-8 | from every state of every history a run that reaches as far as every attempt before it can be carried to its commit, and FINAL then answers the source's rows |
| TombstoneLimits.MoveTies | crates/apitap-core/src/logbased/dest_ch.rs:827-831 | after the set phases a move leaves two equally new answers under its new key if and only if those phases wrote something else there |
| TombstoneLimits.MovedOntoTombstone | crates/apitap-core/src/logbased/dest_ch.rs:1257-1263 | the input: a row moved to a key the window deleted, over any older versions |
| TombstoneLimits.RecutTies | crates/apitap-core/src/logbased/dest_ch.rs:1257-1263 | the input: an image a longer, dead attempt moved there, and a write under the same number after a recut |
| Replay.Resume | crates/apitap-core/src/logbased/replay.rs:213-258 | a replay is planned whenever its numbers are in range: it keeps an intact prefix, trims a torn one from its base, trims the tail a shorter window does not carry, and leaves a marker exactly when it appends |
| Replay.ReplayPlan | crates/apitap-core/src/logbased/replay.rs:173-275 | a plan is refused if and only if the watermark is behind the newest attempt, the attempt's rows were not read or cannot be told apart, or the numbers run out |
| Replay.Memo.Committed | crates/apitap-core/src/logbased/replay.rs:445-452 | a committed marker becomes the newest remembered, and no other table's memory changes |
| Changelog.NothingAskedNothingThere | crates/apitap-core/src/logbased/replay.rs:360-371 | a window told to ask nothing starts where the log holds no row |
| Changelog.SteadyRunAsksNothing | crates/apitap-core/src/logbased/replay.rs:360-369 | past a run's first window, with no rows of others from its watermark on, a window costs no query |
| Changelog.MemoPlansAlike | crates/apitap-core/src/logbased/replay.rs:360-371 | the plan made from the memo, with few facts or none, is the plan made with every fact read |
| Changelog.StepKeeps | crates/apitap-core/src/logbased/dest_ch.rs:621-679 | trim, marker, rows and watermark, each possibly the last before a crash and the rows possibly torn, keep the log's invariant |
| Changelog.ExactlyOnce | benchmarks/e2e_changelog_replay.py:24-39 | over every history every event up to the watermark is in the log once and in the source's order; rows of other releases are untouched, come before every row of this stream, also at a stamp they share, and share a place with none |
| ChangelogProgress.DrainCompletes | benchmarks/e2e_changelog_replay.py:224-281 | from every state of every history whose watermark is not behind the newest attempt, whatever died there, and for every end whose numbers are in range, the next drain can be carried to that end with every event up to it in the log |
| Changelog.BehindRefuses | crates/apitap-core/src/logbased/replay.rs:203-212 | a watermark behind the newest attempt: every drain is refused and appends nothing |
| Changelog.RewindKeeps | benchmarks/e2e_changelog_replay.py:362-469 | a watermark put back to the newest attempt's start, or over no event, keeps the log right |
| Changelog.UnsafeRewindDuplicates | crates/apitap-core/src/logbased/replay.rs:259-265 | any other rewind from where the log began on: the next drain past the old watermark, step by step, leaves every event between the two in the log twice |
| Changelog.RewindBelowOrigin | crates/apitap-core/src/logbased/replay.rs:259-265 | before any marker, a rewind below where the log began is not noticed and appends what the log stood for then |
| CurrentView.ViewIsSource | crates/apitap-core/src/logbased/dest_ch.rs:308-351 | newest record per key, after the newest TRUNCATE, an event over a baseline row, deletes dropped last: the source's table, in whatever order the rows lie |
| CurrentView.HistoryReadsAsSource | benchmarks/e2e_changelog_upgrade.py:4-20 | the log after any history, with no attempt under way, reads through the view as the snapshot, then what older releases logged, then this stream up to the watermark, shared stamps included |
| Group.MemberCap | crates/apitap-core/src/logbased/run.rs:1531-1536 | the next watermark above the lowest, if any |
| Group.SlotTold | crates/apitap-core/src/logbased/run.rs:2206-2214 | the slot is never told less than before, and a window it is told of leaves it exactly where the lowest member stands |
| Group.PassCompletes | crates/apitap-core/src/logbased/run.rs:1531-1536 | from every state of every history the next pass can take the lowest members to the next one's watermark, or to the end of the source's log, and tell the slot |
| Group.AppliedExactlyOnce | crates/apitap-core/src/logbased/run.rs:1956-1962 | over every history each member applies every position once, no window straddles its watermark, and the slot is never told past a position some member has not applied |
| Guard.NeverTwoWriters | crates/apitap-core/src/naming.rs:606-634 | for any number of runs in any interleaving, two runs are never both able to write, unless one spawned the other or both append from different sources |
| Guard.WriterIsAlone | benchmarks/e2e_cdc_fence.py:4-9 | whenever a write commits, no other run may write, with the same two exceptions |
| Guard.ScanFindsPeers | crates/apitap-core/src/naming.rs:811-818 | a scan meets exactly the other runs with a marker up that are not the run's parent and not appending from another source while it appends |
| Guard.DrainShowsBoth | crates/apitap-core/src/naming.rs:1579-1587 | a drain that may write has both its lock and its staging marker up |
| GuardProgress.UnopposedWrites | benchmarks/e2e_bootstrap_lock.py:10-14 | from every state of every history a run that nobody opposes, beside its parents and other sources' appends, can get to a write of its own |
| GuardProgress.KilledDrainHeals | docs/failure-modes.md:412-416 | from every state of every history: a drain killed at its work holds its table up only until its lease lapses; then a run nobody else opposes collects it and gets to a write of its own |
| GuardProgress.WindsDown | crates/apitap-core/src/guard.rs:259-283 | from its work a run can wind down to no marker and no lease row |
| GuardProgress.HandsOver | docs/failure-modes.md:250-252 | a bulk run can hand its lock over to its staging, with a marker up all the while |
| GuardProgress.AbortGoesOn | crates/apitap-core/src/logbased/dest_pg.rs:911-949 | a unit that fails leaves the run at work, its claim its own, and nothing written |
| GuardProgress.RenewedInTime | crates/apitap-core/src/lease.rs:97-126 | a lease row its run wrote less than a lifetime ago on the destination's clock is still its own, whoever has looked at it since |
| Guard.FinishedNeverWrites | crates/apitap-core/src/logbased/dest_pg.rs:911-949 | once a claim on a run's lease row commits, or the run winds down, it never commits another write |
| Guard.UnmarkedIsFinished | benchmarks/e2e_cdc_apply_orphan.py:4-10 | a run's lock is gone only after its last write |
| Guard.ClaimLost | crates/apitap-core/src/sink/postgres.rs:359-396 | a claim is lost only once its life is over on the destination's clock and no transaction of its run holds the row, or when its own run closes it after its markers |
| Guard.MarkerRemoved | crates/apitap-core/src/guard.rs:210-253 | a marker goes only by its own run, or while the lease row of exactly its run stands collected |
| Guard.WorksPastTheGone | crates/apitap-core/src/guard.rs:226-246 | whoever gets to work has seen every run that blocked it with no marker up |
| Guard.EvictedExits | crates/apitap-core/src/lease.rs:51-56 | an evicted drain's next unit is its last step of work: from then on it winds down |
| Guard.NoLeaseNeverCollected | benchmarks/e2e_guard_matrix.py:9-18 | a lock a dead run left with no lease row stands at every later time, whatever other runs do |
| Guard.CollectionResumes | benchmarks/e2e_cdc_fence_my.py:237-255 | a drain whose row has lapsed and is held by no transaction, or whose collection died after its claim, is collected whole by any run that meets it: claimed, both markers dropped, off the list, and the run proceeds if it was the last |
| Guard.RefusalNamesAPeer | crates/apitap-core/src/guard.rs:200-225 | in every history, whoever is refused met at its scan a standing run, neither itself nor its parent nor appending from another source while it appends, that is a bulk run, or a drain with no lease row or with one neither collected nor both lapsed and unheld; or a name of an old release |
| Guard.LegacyBars | crates/apitap-core/src/naming.rs:855-874 | while an un-tokenized name of an old release stands, no run gets past its scan, whatever leases say and however old the name is |
| Guard.NobodyElseRefuses | benchmarks/e2e_bootstrap_lock.py:10-14 | with no such run standing, as for a load nested under its parent's lock, the scan lets the run through |
| Catalog.OtherTablesUnseen | benchmarks/e2e_concurrent_runs.py:209-217 | over the names of the whole catalog a run finds exactly the runs marked on its own table, even where one table's name is a prefix of the other's |
| Catalog.ScanIsLocal | crates/apitap-core/src/naming.rs:696-757 | so what a scan of the catalog blocks on is what the machine of its own table says, whatever every other table holds |
| LeaseVersions.EvictedForEver | benchmarks/e2e_cdc_evict_ch.py:3-25 | once a claim has landed every read answers collected for ever, no statement of the run passes its test and no watermark of it is written; what still executes is the one statement executing then, for half a lifetime at most |
| LeaseVersions.UnclaimedWrites | crates/apitap-core/src/lease.rs:40-46 | from every state of every history in which the row exists and has not been claimed, lapsed or not, the run can renew it and land a statement and its watermark |
| LeaseVersions.WatermarkIsWhole | crates/apitap-core/src/logbased/dest_ch.rs:1459-1507 | over every history of renewals, lapses, claims, pins and re-pins, no watermark is written for a unit that has a fenced-out statement on record |
| LeaseVersions.MarkedUnitPassed | crates/apitap-core/src/logbased/dest_ch.rs:1459-1472 | no statement of a unit whose watermark is written failed its test, and no part of one |
| LeaseVersions.ClaimMeetsStatement | crates/apitap-core/src/sink/clickhouse.rs:200-212 | a collector's check can succeed while a statement executes only in the last second of the row's life |
| LeaseVersions.ClaimLandsOnStatement | crates/apitap-core/src/sink/clickhouse.rs:241-262 | the first claim lands on a statement only if checked in that second, or if a renewal has landed since the check |
| LeaseVersions.CleanClaimExcludes | docs/failure-modes.md:385-391 | in every other case nothing of the run executes from the claim on |
| LeaseLimits.EarlyClaimHappens | crates/apitap-core/src/lease.rs:237-243 | the first case happens, with the shortest lifetime a lease may have |
| LeaseLimits.StaleClaimHappens | crates/apitap-core/src/sink/clickhouse.rs:241-262 | so does the second |
| LeaseVersions.MergeInvisible | benchmarks/_rig.py:190-202 | a merge changes neither whether the row exists nor what it reads as |
| StateTable.ReadersUnchanged | crates/apitap-core/src/sink/bigquery.rs:712-739 | a compaction changes no reader's answer, newest row after the barrier and other sources' rows included, whatever committed since its snapshot |
| StateTable.SupersededGone | crates/apitap-core/src/sink/bigquery.rs:712-739 | and it compacts: the rows its snapshot held a newer row of their key for are gone |
| StateTable.NewestSurvives | benchmarks/e2e_bq_state_compact.py:3-24 | no history of inserts and compactions loses a row that nothing newer of its key outdoes |
| Iceberg.NeverSweepsPublished | crates/apitap-core/src/sink/iceberg.rs:1479-1492 | every snapshot ever published references only files that still exist, the run's files are published at most once, and a run that reports success is published with all its files |
| Iceberg.LandedIsWhole | crates/apitap-core/src/sink/iceberg.rs:1647-1711 | what a landed attempt publishes is exactly the run's files, on top of exactly what was current when it landed if it appends or merges |
| Iceberg.UnknownMeansLost | crates/apitap-core/src/sink/iceberg.rs:1495-1506 | a run leaves its files unswept only if the catalog's answer to a commit or to a reload was lost |
| Iceberg.FailedLeavesNothing | crates/apitap-core/src/sink/iceberg.rs:1449-1455 | a run that failed for certain can sweep all its files, and no published file goes |
| Iceberg.ThreeAttempts | crates/apitap-core/src/sink/iceberg.rs:1540-1547 | at most three attempts are ever sent |
| Iceberg.RetrySucceeds | crates/apitap-core/src/sink/iceberg.rs:1784-1830 | after a conflict or a lost answer a run with attempts left can build on the table as it then stands and end in success |
| Naming.Base36 | crates/apitap-core/src/naming.rs:365-373 | the digits spell the time, modulo the width |
| Naming.SpellingKeepsOrder | benchmarks/_rig.py:299-307 | equal-width spellings sort as the times they spell |
| Naming.Mine | benchmarks/_rig.py:81-90 | the selected names, sorted, are exactly the listed ones anchored at both ends and by length, each as often as listed |
| Naming.AtMostIs | benchmarks/_rig.py:81-90 | the order the names are sorted in: a prefix first, or the smaller character where two first differ |
| Naming.MineIsExact | benchmarks/_rig.py:81-90 | an artifact is selected for a table exactly when it was minted for it |
| Naming.TokenInverts | benchmarks/_rig.py:69-74 | the token read from a minted name is the token it was minted with |
| Workloads.Session | benchmarks/bench-capped-pg-ch-cdc-stress-writer.py:138-158 | a session's tables each end with their band raised by the number of transactions and the same ids, though the fresh-id counter is shared |
| Workloads.ReconstructsExactly | benchmarks/bench-cdc-stress-prefix.py:129-152 | a session run to `now` with `now - at` taken off its bands is the session run to `at`, table by table, with the same ids at every point |
| Digests.DigestSays | benchmarks/bench-cdc-stress-prefix.py:155-172 | the digest of a table has its number of rows and its least and greatest id |
| Digests.SumTells | benchmarks/bench-cdc-stress-prefix.py:155-172 | two tables that differ in one row have sums that differ by the difference of its hashes |
| Digests.DigestsAgree | benchmarks/bench-cdc-stress-prefix.py:155-172 | the two regions of the source so undone and the destination have one digest, under any row hash and in whatever order either side reads its rows |
| Workloads.RunWindow | benchmarks/bench-capped-my-ch-cdc-window.py:54-80 | the row count, each updated row incremented once, each clone numbered by itself |

## Left out

- Wire formats, type mappings, identifier quoting, SQL text and memory planning: no state that spans operations.
- Clocks, retries, HTTP and connections: each server answer is a step, a lost answer is a step of its own, time is a counter.
- WindowReapplied: one direction only, since no condition on the window alone is exact (`SwapOfEqualsStands`); `OltpLimits.dfy` has a failing input for every part of it.
- CollapsedIsReplay: full old images must be the rows they name, which a key checked row by row guarantees; deferrable keys are in `Deferred.dfy`.
- DeferredWindowExact: masked images under a deferrable key, whose moves can meet two rows at one key.
- SealedIsLanded: full old images must be the rows they name, as above.
- NextKeeps: journal entries in the key form of release 0.62.0, tried on a miss.
- FinalIsSource: logs with moves on the insert-only path, where two versions can be equally new; `TombstoneLimits.dfy` says when.
- Catalog: the un-tokenized names of old releases, which `Guard.dfy` has per table.
- ExactlyOnce: logs that start with a marker of release 0.56.0, which carries no base; the plan itself models it.
- CurrentView: filling unchanged-TOAST cells of a change log before its rows are written; records are whole here.
- Guard: BigQuery's per-run fence table. ClickHouse's fence is in `LeaseVersions.dfy`, for one run and one table.
- LeaseVersions: units over several tables, whose deadline is the lowest of theirs; the client's clock, which decides only when a unit reads its row again.
- Guard: a run over several tables is such a run on each of them; `Catalog.dfy` shows that their names never meet.
- Group: overlapped windows of the insert-only path, which close as a contiguous prefix.
- K::I64, the collapser's fast key form, which is taken only where it spells back to the same text.
- Naming: shortening of names past an engine's identifier limit, which goes through MD5.
- Bulk loading, sinks' finalize paths, S3 and GCS, TLS, auth, progress and the Python bindings.
