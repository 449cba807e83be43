# A verified model of the collector, search and storage cores

This project models the parts of the repository that have the most state and arithmetic, in Dafny,
and proves what they promise: for every input, every run or every reachable state.

* **Collector protocol** (`Peaks`, `Replication`, `Producing`, `SnapshotProtocol`, `Journaling`,
  `JournalProtocol`, `JournalReaders`, `JournalRuns`, `Transactions`): revisioned full and patch frames of
  per-key peak histories, a replica that recovers from loss and reordering, a journal of dirty markers,
  and messages cut into parts.
* **Compute executor** (`Executing`): worker slots that outlive their callers, replaceable process
  pools, counted admission.
* **Pattern search** (`Correlation`, `PatternSearch`): prefix-sum statistics, masks and the two
  searches over z-normalised windows.
* **Surge detectors** (`Surge`): the hysteresis loop and its rebased variant.
* **Heatmaps** (`StockSessions`, `Heatmap`): bucket grids and the derivation of coarse points.
* **Depth store** (`DepthDaily`): the fingerprinted sweep, the locked merge, the fallback.
* **Capture queue** (`QueueRuntime`): instances contending for one lock.
* **Generated regions** (`Markers`), **breadth** (`Breadth`), **layout migration** (`Migration`) and
  the **trading-day calendar** (`Calendar`).

Objects whose methods update fields are classes whose methods are proved against functions of their
old state; loops are methods with invariants proved against specification functions; protocols are
state machines over those same functions, with theorems about whole runs. Prices, scores and widths
are exact reals; a square root is a parameter that satisfies its equation. JSON, files, clocks,
event loops and worker processes appear as values, parameters or nondeterministic steps.

`Wrappers`, `Ordering`, `Division` and `Sums` hold the result types, sorted sets of integers, quotients
and sums the models share. `dafny verify dfyconfig.toml` checks the whole project.

## What does not hold as promised

The code is modelled as it is; where a promise fails, the exact condition is proved.

* Derived heatmaps do not compose across resolutions after 20:00 on KRX: four-hour points derived
  from two-hour ones differ from those derived directly
  (`Heatmap.TwoHourPointsDoNotMakeFourHourPoints`). They compose on every list of points exactly when
  the two steps nest, which is a closed-form condition on the steps (`Heatmap.DerivationsCompose`,
  `StockSessions.BucketsNest`). Ordinary buckets that do not divide an hour do not nest in the extended
  KRX ones they divide (`StockSessions.OrdinaryNestInExtended`). For points within the day the steps
  must nest at the day's times (`Heatmap.DayDerivationsCompose`); that is the same condition if the
  finer step divides the coarser (`StockSessions.DayDecides`), and may hold without it
  (`StockSessions.LongBucketsNestInTheDay`).
* Derived times go back for some accepted steps on KRX: three-hour points come out at 19:00 and then
  18:00 (`Heatmap.ThreeHourPointsGoBack`). They strictly increase on every list in order of time exactly
  when the last aftermarket bucket does not start after the bucket of 20:00
  (`Heatmap.DerivedTimesIncrease`).
* `replaceMarker` is idempotent exactly when the payload does not contain the end marker
  (`Markers.ReplacingTwiceIsOnce`), and so is the stylesheet's branch
  (`Markers.RewritingCssTwiceIsOnce`).
* `trading_days_in_range` and `is_trading_day` disagree on lines whose month does not exist
  (`Calendar.RangeAgreesWithDays`, `Calendar.ThirteenthMonthDisagrees`), and a range ending in
  December 9999 always fails (`Calendar.TradingDaysInRange`).
* A forward migration stops in a directory that has a loose file called `KRX`
  (`Migration.ForwardCompletes`, `Migration.LooseVenueFileStops`), and one back stops where a venue file
  has the name of something in its source directory, such as a source's own `meta.json`
  (`Migration.ReverseCompletes`, `Migration.SourceMetaStopsTheWayBack`).
* The migration's text speaks of a directory `KRX`, but any directory inside makes the code treat a
  source directory as migrated. A completed run does what the text says exactly when every source
  directory with a loose file and some directory has `KRX` (`Migration.DocumentedExactly`); otherwise
  the files are stale, and pruning can take the only copy (`Migration.OtherVenueIsPruned`), which it does
  exactly for contents held by stale files only (`Migration.PruningLosesExactly`).
* The migration's text calls a rerun after an interruption safe. It ends where an uninterrupted run
  would exactly when no directory was left half moved (`Migration.RerunIsSafeExactly`); the rest of a half
  moved one stays, and is stale (`Migration.LeftOver`, `Migration.MadeDirectoryIsEnough`,
  `Migration.RerunPrunesTheRest`).
* A second attempt of a queue instance while one waits would activate without the lock
  (`QueueRuntime.OverlapBreaksOwnership`); the program's one retry task never makes one.
* A shutdown of the queue is final exactly when no attempt waits as it begins
  (`QueueRuntime.ShutdownIsFinal`). A waiting attempt can still run
  (`QueueRuntime.ShutdownDoesNotStopAWaitingAttempt`), and if it fails instead the shutdown is forgotten
  and the next attempt is let through (`QueueRuntime.FailedAttemptForgetsShutdown`).
* Overlapping sweeps of the depth store can leave an outdated row
  (`DepthDaily.SlowSweepOutdates`); `DepthDaily.CommitLeavesCurrent` says exactly when a commit leaves a
  row current, and `DepthDaily.RunsStayHonest` that an outdated one is never taken for current.
* `Producer`'s documentation calls `prepare` pure; the code also notices the value it is given, and
  the model follows the code. It changes nothing exactly when the value is the one noticed last, and
  never the base, which is what the documentation is after (`Producing.PreparingIsPureExactly`).
* The journal delivers a change of a side exactly when the hints cover its minutes and its record
  (`JournalProtocol.ChangeDelivers`, `JournalProtocol.DirtyPatchDelivers` for a whole frame); a side
  emptied, filled again and named without a minute it lost arrives exactly when a frame of the emptied
  side was committed in between (`JournalProtocol.RefilledSideArrives`).
* A replica at a committed revision need not hold the committed dates: if the revision went out once
  more with another date, the reader of the first frame keeps that frame's
  (`JournalRuns.ResendingRedates`). One reader is right, dates included, exactly when the sides shown
  were last written to it on the committed date (`JournalReaders.ReaderIsAtBase`), and every reader is
  exactly when no revision goes out on two dates (`JournalReaders.ReadersAreAtBase`).
* The journal loses markers if commits go back: of two overlapping `frames` calls the later frame may
  be committed first, and what it carried is then neither marked nor with the reader of the earlier one
  (`JournalRuns.GoingBackLosesAMinute`). As long as no commit goes back behind the committed revision no
  interleaving loses any (`JournalReaders.NoLostMarker`), and one that does go back still delivers
  exactly as `JournalProtocol.CommitDeliversExactly` says.
* A record that lands at a yield of `initial_frames` is lost: the key's revision is reset to 1
  (`JournalRuns.RecordAtFirstFrameIsLost`). The theorems on readers are about runs in which first frames
  come before anything is recorded.

## Model

| member | source | states |
|---|---|---|
| Peaks.MaterializeUndoesNormalize | scripts/probe_collector_ipc_design.py:39-51 | Materialising a normalised side gives the side back in canonical form; a missing side stays missing |
| Peaks.NormalizeUndoesMaterialize | scripts/probe_collector_ipc_design.py:39-51 | Normalising a materialised side gives the normal form back, for minute maps keyed by their points' minutes |
| Peaks.SortUndoesByMinute | scripts/probe_collector_ipc_design.py:42-43 | Indexing sorted one-point-per-minute lists by minute and sorting again is the identity |
| Peaks.ByMinuteUndoesSort | scripts/probe_collector_ipc_design.py:50-51 | Sorting a minute map's points and indexing them again is the identity |
| Peaks.MappingPatchRoundTrip | scripts/probe_collector_ipc_design.py:54-62 | Applying the patch between two mappings to the first gives the second, whatever they are |
| Peaks.SidePatchRoundTrip | scripts/probe_collector_ipc_design.py:65-77 | One side's change, applied to the old normal form, fits it and gives the new normal form, whether it is a replacement (one side missing, another date) or a patch of fields and minutes |
| Peaks.PeakPatchRoundTrip | scripts/probe_collector_ipc_design.py:65-77 | The patch between two complete values fits the old one and turns its normal form into the new one's on every side |
| Peaks.PatchingIsSeenByReaders | scripts/probe_collector_ipc_design.py:154-164 | Patching a stored value is, for whoever reads its sides, patching what they read |
| Replication.ApplyIsLocal | scripts/probe_collector_ipc_design.py:140-167 | A frame acts on its own key as the per-key rule says and leaves every other key alone |
| Replication.Replica.Heartbeat | scripts/probe_collector_ipc_design.py:137-138 | A heartbeat replaces the expected revisions and nothing else |
| Replication.Replica.ApplyFrame | scripts/probe_collector_ipc_design.py:140-167 | The in-place method does exactly what the state function says: old epoch or version raises, a revision not newer is refused, a patch off its base marks the key for resynchronisation, and otherwise removal, full value or patch is applied and the mark cleared |
| Replication.BatchActsKeyByKey | scripts/probe_collector_ipc_design.py:140-167 | A batch with one frame a key, in any order, acts on each key by its own frame and raises nowhere if no single frame would |
| Producing.Producer.Notice | scripts/probe_collector_ipc_design.py:94-97 | Noticing a value advances the key's source revision exactly when it differs from the latest one |
| Producing.Producer.Observe | scripts/probe_collector_ipc_design.py:92-97 | Observing a snapshot notices each key seen before or now, missing keys as removed |
| Producing.Producer.Prepare | scripts/probe_collector_ipc_design.py:99-113 | Preparing gives no frame when nothing is new, a removal, a full value or a patch on the committed base; what it changes is what noticing changes |
| Producing.PreparingIsPureExactly | scripts/probe_collector_ipc_design.py:80-113 | Preparing leaves the whole state as it is if and only if the value is the one noticed last; it never moves what was committed of any key |
| Producing.Producer.Commit | scripts/probe_collector_ipc_design.py:115-117 | Committing advances one key's base to the frame and keeps the others |
| Producing.Producer.Frames | scripts/probe_collector_ipc_design.py:119-127 | A whole `frames` call observes, then prepares and commits each key once, whatever the order of keys |
| Producing.EmitOneMore | scripts/probe_collector_ipc_design.py:122-127 | What has been emitted for a set of keys stays described when one more key's frame follows |
| SnapshotProtocol.FaithfulFrame | scripts/probe_collector_ipc_design.py:140-167 | A frame for observed revisions, applied to an entry that holds an observed revision, leaves it holding an observed revision, no older than before, and does not raise |
| SnapshotProtocol.StepKeepsInv | scripts/probe_collector_ipc_design.py:92-117 | Observing, preparing, committing, full replies, deliveries, foreign frames and heartbeats, in any order, keep the protocol invariant |
| SnapshotProtocol.RunKeepsInv | scripts/probe_collector_ipc_design.py:80-172 | The invariant holds in every state of every run |
| SnapshotProtocol.ReplicaHoldsWhatWasObserved | scripts/probe_collector_ipc_design.py:140-167 | Under any loss, repetition or reordering: a key held at revision r is the normal form of what the producer observed at r, and a key removed at r is gone |
| SnapshotProtocol.RevisionsNeverDecrease | scripts/probe_collector_ipc_design.py:145-147 | A key's revision at the replica never goes down over a run |
| SnapshotProtocol.DeliveryNeverRaises | scripts/probe_collector_ipc_design.py:140-164 | No delivery of the producer's own frames raises; in particular no patch meets a missing key or side |
| SnapshotProtocol.ExposedKeysAreFresh | scripts/probe_collector_ipc_design.py:169-172 | An exposed key is at least as new as the last heartbeat asked for, awaits no resynchronisation, and is one whole observed value |
| SnapshotProtocol.InOrderDeliveryConverges | scripts/probe_collector_ipc_design.py:119-127 | All frames of a snapshot applied in order, keys in any order: nothing raises, both ends agree again and the replica holds exactly the snapshot |
| SnapshotProtocol.SnapshotIsCurrent | scripts/probe_collector_ipc_design.py:169-172 | A replica that holds a snapshot and lags behind no heartbeat exposes exactly it: the same keys, every side in canonical form |
| SnapshotProtocol.TurnKeepsPairInv | scripts/probe_collector_ipc_design.py:119-127 | On a lane that keeps its order, observing, heartbeats and sending keep producer and replica in step |
| SnapshotProtocol.DeliveredSnapshotIsExposed | scripts/probe_collector_ipc_design.py:119-172 | After any history of observations, heartbeats and deliveries, delivering a snapshot makes the replica expose it |
| Journaling.SnapshotNormalizes | scripts/probe_collector_ipc_design.py:293-298 | The normal form of a native side's snapshot is its scalars and its minute maps, without going through lists |
| Journaling.NativeJournal.RecordKey | scripts/probe_collector_ipc_design.py:197-207 | Recording one key's hints marks the hinted minutes and indices with the new revision and, with `full`, the key itself |
| Journaling.NativeJournal.Record | scripts/probe_collector_ipc_design.py:197-207 | Recording acts on each hinted key alone |
| Journaling.NativeJournal.Prepare | scripts/probe_collector_ipc_design.py:209-247 | The frame prepared: a removal, a full value for a new date or a forced key, or a patch of the marked minutes, the record tail and the scalars; only a patch needs something pending |
| Journaling.NativeJournal.CommitFirst | scripts/probe_collector_ipc_design.py:188-195 | After a key's first frame its revision is 1 and committed, whatever was recorded before; its marks stay, and the other keys are kept |
| Journaling.NativeJournal.Commit | scripts/probe_collector_ipc_design.py:249-264 | Committing moves the base, the date and the availability flags to the frame and drops what it sent; the other keys are kept; it raises if and only if the key is no longer pending, the base already moved |
| Journaling.NativeJournal.DropMarkers | scripts/probe_collector_ipc_design.py:259-264 | Markers no newer than the frame go, newer ones stay, and a key with nothing newer is no longer pending; it raises if and only if the key was not pending |
| JournalProtocol.ChangeDelivers | scripts/probe_collector_ipc_design.py:219-246 | A side's patch applies to whatever a reader had of it and gives the native side if and only if the marks cover every changed minute and an index up to which the record is unchanged |
| JournalProtocol.SidePatchDelivers | scripts/probe_collector_ipc_design.py:219-246 | For any ledger, a side brings a reader up to date if and only if: unnamed, it looks as before; named, it is empty now or not flagged, or the reader has it and its marks cover the change |
| JournalProtocol.DirtyPatchDelivers | scripts/probe_collector_ipc_design.py:219-247 | For any ledger, a patch frame fits and brings a reader of one state to another, each side on the date it was written, if and only if each of its sides does |
| JournalProtocol.PatchFitsExactly | scripts/probe_collector_ipc_design.py:149-164 | A patch frame fits a reader of the base if and only if every side it changes in place is there |
| JournalProtocol.FrameDeliversExactly | scripts/probe_collector_ipc_design.py:140-247 | For any ledger, base and native state: a reader of the base takes the frame prepared and ends on the native state, each side on the date it was written, if and only if every side arrives (or the frame is a removal or full, or the two states look the same and nothing is due) |
| JournalProtocol.PreparedFrameDelivers | scripts/probe_collector_ipc_design.py:209-247 | At whatever moment a frame is prepared, a reader holding the committed base, its sides on any dates, takes it without raising and holds the native state of that moment, on the frame's date wherever the frame wrote |
| JournalProtocol.StepKeepsInv | scripts/probe_collector_ipc_design.py:182-264 | Mutation with recording, rollover, first frames, preparation and the commit of any frame ever prepared, whatever generators are under way, keep the account of what is not yet sent, unless a commit goes back or a first frame is overtaken |
| JournalReaders.ReadersHoldWhatWasNative | scripts/probe_collector_ipc_design.py:140-270 | Over every orderly run (no commit goes back; first frames come before anything is recorded), a reader handed any of the frames that went out, late, again, out of order or not at all, holds at revision r the native state of revision r in normal form, each side on exactly the date of the last frame it took that wrote it |
| JournalReaders.ReadersNeverRaise | scripts/probe_collector_ipc_design.py:140-270 | In an orderly run nothing such a reader is handed raises, and its revision never goes back |
| JournalReaders.FollowerExists | scripts/probe_collector_ipc_design.py:140-270 | In every orderly run some reader stands at the committed revision at each moment: the one handed each committed frame |
| JournalReaders.ReaderIsAtBase | scripts/probe_collector_ipc_design.py:140-270 | One reader at the committed revision holds what was committed, dates included, if and only if each side the base shows was last written to it on the committed date |
| JournalReaders.ReadersAreAtBase | scripts/probe_collector_ipc_design.py:140-270 | Every reader at a committed revision of an orderly run holds what was committed, dates included, if and only if no committed revision that shows a side ever went out with another date as well |
| JournalReaders.NoLostMarker | scripts/probe_collector_ipc_design.py:197-270 | In every orderly run, with any number of frames out at once and records landing meanwhile, and after any history of deliveries, a reader at the committed revision takes the frame prepared next and holds the native state of that moment, on the frame's date where it wrote and on the reader's own dates elsewhere |
| JournalProtocol.AnyRunDeliversExactly | scripts/probe_collector_ipc_design.py:182-270 | In any run at all, orderly or not, a reader of the committed base is brought to the native state by the frame prepared next if and only if `Delivers` holds of ledger, base and native state |
| JournalProtocol.CommitDeliversExactly | scripts/probe_collector_ipc_design.py:182-270 | When a commit, going back or not, still delivers: the reader of the frame committed is brought up to date by the frame prepared next if and only if that frame is full or a removal, or each side is unmarked and as it was, is written whole, or has a mark newer than the committed frame for every change since it was prepared |
| JournalRuns.GoingBackLosesAMinute | scripts/probe_collector_ipc_design.py:197-270 | The concrete run: two overlapping `frames` calls commit the later frame first; the minute it carried is gone from the marks, and a reader of the earlier frame takes the next one without any sign and never gets the minute, on whatever dates |
| JournalRuns.RecordAtFirstFrameIsLost | scripts/probe_collector_ipc_design.py:186-270 | The concrete run: a record lands at the yield of `initial_frames`; the revision is reset to 1, the reader refuses the next frame as not newer, and the commit drops the marker |
| JournalRuns.ResendingRedates | scripts/probe_collector_ipc_design.py:209-270 | The concrete run: a frame goes out uncommitted, the date rolls over, the revision goes out again and is committed, and the first frame's reader stands at the committed revision on the wrong date |
| JournalProtocol.IdleMeansDelivered | scripts/probe_collector_ipc_design.py:263-264 | In an orderly run a key with nothing pending has been delivered: what was committed last is the native state |
| JournalProtocol.CommitDropsOnlySentMarkers | scripts/probe_collector_ipc_design.py:257-264 | A marker survives a commit exactly when it is newer than the frame |
| JournalProtocol.RemovedKeyNeedsFull | scripts/probe_collector_ipc_design.py:214-218 | A key whose removal was delivered takes its next frame if and only if that frame patches no side: it is removed again, forced full, or on a new date |
| JournalProtocol.UnmarkedMinuteStaysBehind | scripts/probe_collector_ipc_design.py:239-246 | A changed minute that nothing marks is not delivered, so covering hints are needed |
| JournalProtocol.RefilledSideArrives | scripts/probe_collector_ipc_design.py:224-246 | A side emptied, filled again and named without a minute it lost arrives if and only if what was committed last is the emptied side |
| Transactions.TransactionFrames | scripts/probe_collector_ipc_design.py:425-444 | Cutting a message: parts run from 0 with only the final one last, none is longer than an eighth of the limit, their data is the token stream; a step of 0 is refused as soon as there is a token |
| Transactions.CutToken | scripts/probe_collector_ipc_design.py:433-441 | One token goes in piece by piece, flushing full parts, and the text spelled grows by exactly the token |
| Transactions.Assemble | scripts/probe_collector_ipc_design.py:447-462 | Assembling returns the message of the parts up to the first last one, or says which check failed |
| Transactions.OnlyWholeTransactionsAssemble | scripts/probe_collector_ipc_design.py:447-462 | Whatever a lane makes of the parts of several transactions, a message comes out if and only if what arrived starts with one whole transaction in order, and then it is that transaction's message |
| Transactions.RoundTrip | scripts/probe_collector_ipc_design.py:425-462 | Cut and assembled, a message comes back |
| Executing.ComputeExecutor.constructor | hoga/compute_executor.py:174-200 | At least one worker and one admission; all slots free, no pool |
| Executing.ComputeExecutor.Enter | hoga/compute_executor.py:202-212 | Admission counts up to its cap and counts rejections beyond it |
| Executing.ComputeExecutor.Leave | hoga/compute_executor.py:202-212 | Leaving admission gives back one place |
| Executing.ComputeExecutor.EnsurePool | hoga/compute_executor.py:228-237 | The pool is made when there is none and kept otherwise |
| Executing.ComputeExecutor.DiscardPool | hoga/compute_executor.py:275-282 | Only the expected pool is discarded, and only then respawns counts |
| Executing.ComputeExecutor.ReleaseSlot | hoga/compute_executor.py:262-273 | A finished job's slot comes back; a broken pool is discarded first, if it is still the current one |
| Executing.ComputeExecutor.Submit | hoga/compute_executor.py:244-260 | A job handed over keeps its slot; a failed hand-over gives it back and discards a broken pool |
| Executing.ComputeExecutor.Shutdown | hoga/compute_executor.py:292-301 | Shutdown closes the pool and counts no respawn |
| Executing.StepKeepsInv | hoga/compute_executor.py:202-301 | Admission, acquisition, submission, breakage, job ends, callbacks and shutdown, in any order, keep the invariant on slots, tickets, admission and pools |
| Executing.SlotsAreConserved | hoga/compute_executor.py:239-273 | In every reachable state free slots, jobs whose callback has not run and the caller in between add up to the workers; each acquired slot comes back exactly once; with nothing outstanding all are free, callers cancelled or not |
| Executing.AdmissionIsCounted | hoga/compute_executor.py:202-212 | `pending_requests` is the number of callers inside and stays within the cap |
| Executing.PoolsRetireOnce | hoga/compute_executor.py:228-282 | No pool is retired twice, the current one has never been retired, every pool made is one or the other, and `respawns` counts those retired because they broke |
| Executing.CallbackRetiresOnlyItsOwn | hoga/compute_executor.py:262-282 | A callback retires the pool of its own job if and only if the job ended broken and the pool is still current; a late one retires nothing |
| Executing.WokenCallerGetsALivePool | hoga/compute_executor.py:262-273 | Whoever takes a slot after a broken job's callback never gets that job's pool, however many steps lie between |
| Executing.NothingIsHandedToARetiredBrokenPool | hoga/compute_executor.py:244-257 | A retired pool in a submitting caller's hand was closed by a shutdown, never retired as broken, and its failure retires nothing more |
| Heatmap.KeyDeterminesBook | hoga/api/depth_heatmap_reaggregate.py:14-19 | Equal maximum keys mean equal books, level by level |
| Heatmap.PeakIsGreatest | hoga/api/depth_heatmap_reaggregate.py:14-19 | The book chosen is one of the rows', none has a greater key, and every row that ties has the same book, so it does not matter which is found first |
| Heatmap.QuantityIsLargest | hoga/api/depth_heatmap_reaggregate.py:22-28 | A price's wall is the largest quantity of any level at it, never negative, and there for exactly the prices seen |
| Heatmap.ListedUndone | hoga/api/depth_heatmap_reaggregate.py:28-28 | Listing walls by price, either way, and collecting them again changes nothing |
| Heatmap.PriceMax | hoga/api/depth_heatmap_reaggregate.py:22-28 | The nested loops collect exactly the walls of all rows, asks ascending and bids descending |
| Heatmap.Maximum | hoga/api/depth_heatmap_reaggregate.py:52-55 | The first greatest row's book, or an error if some book is uneven |
| Heatmap.Reaggregate | hoga/api/depth_heatmap_reaggregate.py:31-67 | The grouping loop returns the grouped summaries, the points themselves for one minute, or the error |
| Heatmap.GroupedPartitions | hoga/api/depth_heatmap_reaggregate.py:47-66 | For points whose buckets do not go back there is one cell for each bucket that has points, buckets strictly increasing, each summing up exactly its points |
| Heatmap.GroupingComposes | hoga/api/depth_heatmap_reaggregate.py:47-66 | Going through a finer bucket function first changes nothing, for any two that nest on the points' times |
| Heatmap.ReaggregationComposes | hoga/api/depth_heatmap_reaggregate.py:31-67 | Deriving coarser points from finer ones gives what deriving them from minute points gives, errors included, wherever the two buckets nest at the points' times |
| Heatmap.DerivationsCompose | hoga/api/depth_heatmap_reaggregate.py:31-67 | For any two accepted steps, deriving in two goes is exact on every list of points, at whatever times, if and only if the steps nest, in closed form |
| Heatmap.DayDerivationsCompose | hoga/api/depth_heatmap_reaggregate.py:31-67 | And on every list of points within the day if and only if the steps nest at every time of the day |
| Heatmap.TwoHourPointsDoNotMakeFourHourPoints | hoga/api/depth_heatmap_reaggregate.py:31-67 | The concrete failure: for any point at 20:00 on KRX four-hour points derived from two-hour ones differ from those derived directly |
| Heatmap.DerivedPoints | hoga/api/depth_heatmap_reaggregate.py:31-67 | On points in order of time, with buckets that follow time, derived times strictly increase and each bucket's derived point sums up exactly its points |
| Heatmap.DerivedTimesIncrease | hoga/api/depth_heatmap_reaggregate.py:31-67 | For an accepted step every list of points in order derives to strictly increasing times if and only if the last aftermarket bucket does not start after the bucket of 20:00 |
| Heatmap.ThreeHourPointsGoBack | hoga/api/depth_heatmap_reaggregate.py:31-67 | The concrete failure: three-hour points of the moment before 20:00 and of 20:00 on KRX come out at 19:00 and 18:00 |
| StockSessions.OrdinaryBucketsNest | hoga/live/stock_sessions.py:83-101 | Ordinary buckets nest at all times if and only if the finer divides the coarser |
| StockSessions.OrdinaryNestInExtended | hoga/live/stock_sessions.py:83-101 | Ordinary buckets that divide extended ones nest in them at all times if and only if they divide one hour (KRX) or nine (elsewhere) |
| StockSessions.ExtendedNest | hoga/live/stock_sessions.py:83-101 | Extended buckets nest in extended ones before 20:00, elsewhere always, and on KRX at all times if and only if the finer step divides eleven hours, its bucket at 20:00 starts before 16:00, or the coarser divides seven hours |
| StockSessions.BucketsNest | hoga/live/stock_sessions.py:83-101 | For any two steps, day and venue: the buckets nest at all times if and only if the finer divides the coarser and, with an extended coarser one, the closed-form condition on the restarts of the grid holds |
| StockSessions.DayDecides | hoga/live/stock_sessions.py:83-101 | If the finer step divides the coarser, the two nest at every time of the day if and only if they nest at all times |
| StockSessions.LongBucketsNestInTheDay | hoga/live/stock_sessions.py:83-101 | The concrete case where it does not divide it: one-hour buckets nest in those of nine and a half hours at every time of the day on KRX, and not at all times |
| StockSessions.TwoHoursDoNotNestInFourAfterClose | hoga/live/stock_sessions.py:83-101 | The concrete failure: 20:00 goes to 19:00 and then 16:00, but directly to 17:00 |
| StockSessions.BucketsFollowTime | hoga/live/stock_sessions.py:91-101 | Later times are never in earlier buckets if and only if, on KRX and with an extended step, the last aftermarket bucket does not start after the bucket of 20:00, in closed form |
| StockSessions.ThreeHoursGoBack | hoga/live/stock_sessions.py:91-101 | The concrete failure: three-hour buckets put 19:59:59.999 at 19:00 and 20:00 at 18:00 |
| Surge.DetectSurge | scripts/measure_hoga_tick_band_normalization.py:265-282 | The loop returns what the fold of its turns returns |
| Surge.ScanExplained | scripts/measure_hoga_tick_band_normalization.py:265-282 | The loop's variables read off the values: the running peak is the prefix maximum, armed means a dip no firing has answered, each mark is its firing moved to the last new high before the next dip |
| Surge.MarksAreTheFirings | scripts/measure_hoga_tick_band_normalization.py:265-282 | On every input: one mark for each firing, in order, at the last new high before the next dip, with the true maximum of all earlier values |
| Surge.MarksAreNearThePeak | scripts/measure_hoga_tick_band_normalization.py:277-280 | A mark's value is at least `approach` times the peak it records, for any `approach` |
| Surge.MarksAreSeparatedByDips | scripts/measure_hoga_tick_band_normalization.py:275-280 | Between two consecutive marks some value fell below `rearm` times the peak before it, and the indices increase |
| Surge.MarkIndicesIncrease | scripts/measure_hoga_tick_band_normalization.py:265-282 | Mark indices strictly increase |
| Surge.DetectSurgeRebased | scripts/measure_hoga_tick_band_normalization.py:536-560 | The rebased loop returns the marks of its values' flags against the rebased peak, or refuses unequal lengths |
| Surge.SteadyWidthsChangeNothing | scripts/measure_hoga_tick_band_normalization.py:536-560 | Without a step, or while no positive width is off the first one by more than the step, the rebased detector marks the indices the plain one does |
| Surge.DensityPeak | scripts/measure_hoga_tick_band_normalization.py:544-559 | With step 0 the running peak is the density's, in the current width |
| Surge.StepZeroSeesTheDensity | scripts/measure_hoga_tick_band_normalization.py:536-560 | With step 0 and positive widths, values that are density times width are marked where the plain detector marks the density |
| Surge.UnitsDoNotMatter | scripts/measure_hoga_tick_band_normalization.py:265-282 | The plain detector marks the same indices in any unit |
| PatternSearch.Centre | tools/bench_pattern_search.py:117-125 | Loading takes each stock's mean close off its four channels, in place, each stretch by its own mean |
| PatternSearch.WinStats | tools/bench_pattern_search.py:142-161 | Prefix sums give every window's true mean and deviation, all channels on one scale |
| PatternSearch.RollMean | tools/bench_pattern_search.py:164-166 | Prefix sums give every window's mean |
| Correlation.VarianceFromSums | tools/bench_pattern_search.py:155-161 | The mean square less the squared mean is the variance, and never negative |
| Correlation.ZNormIsNormal | tools/bench_pattern_search.py:175-178 | A normalised window sums to 0 and has its length as its square |
| PatternSearch.Cross | tools/bench_pattern_search.py:247-251 | The channel-wise correlations add up to the product of each window with the query |
| PatternSearch.Scores | tools/bench_pattern_search.py:241-266 | The array of scores after all masks, set in place: a score exactly for the windows that count, the history score |
| PatternSearch.BestOf | tools/bench_pattern_search.py:267-276 | A stock's hit is the first best window that counts, if one does |
| PatternSearch.SearchHistory | tools/bench_pattern_search.py:225-278 | One hit for each stock with a window left, ranked as tuples sort in reverse; a flat query fails at the first stock not skipped |
| PatternSearch.RankingHasTheBest | tools/bench_pattern_search.py:270-278 | The answer holds a stock once if and only if some window of it counts, with its best window, best scores first |
| PatternSearch.HitsAreTheBest | tools/bench_pattern_search.py:270-276 | A stock has a hit if and only if some window of it counts, and the hit is its best |
| PatternSearch.SearchNow | tools/bench_pattern_search.py:198-222 | One row for each listed stock, scoring its latest window, ranked as tuples sort in reverse |
| Correlation.ScoresAgree | tools/bench_pattern_search.py:217-220 | The unnormalised cross product divided once equals the mean product of the normalised windows |
| Correlation.ScoreInRange | tools/bench_pattern_search.py:219-220 | Two normal windows score between -1 and 1 |
| Correlation.QueryScoresOne | tools/bench_pattern_search.py:247-252 | A window scores 1 against itself |
| PatternSearch.HistoryScoresAreCorrelations | tools/bench_pattern_search.py:241-252 | Every score of history is the normalised one of its window and lies between -1 and 1 |
| PatternSearch.NowIsTheEndOfHistory | tools/bench_pattern_search.py:198-278 | With no bars asked for after a window and no dates excluded, a stock is listed now if and only if history keeps its last window, with the same score, so its hit is at least as good |
| PatternSearch.CentringIsNotSeen | tools/bench_pattern_search.py:117-125 | One constant off all channels of each stock changes neither the query, nor which windows count, nor any score |
| PatternSearch.SelfMaskIsExact | tools/bench_pattern_search.py:265-266 | The self mask takes out exactly the windows that share a bar with the query |
| PatternSearch.DateMaskCovers | tools/bench_pattern_search.py:262-264 | On bars in order of date, a window with a bar dated within the query's dates is taken out |
| DepthDaily.DepthStore.Sweep | hoga/api/depth_daily.py:183-282 | A sweep scans the tree against the rows it loaded and merges its new rows under the lock over whatever other sweeps committed meanwhile, with the counts of the scan |
| DepthDaily.DepthStore.Merge | hoga/api/depth_daily.py:263-271 | The locked load, merge and write: new rows over current ones, the last of a key winning |
| DepthDaily.ScanTree | hoga/api/depth_daily.py:212-258 | The nested loops visit exactly the entries in scope, in order, with the four counters |
| DepthDaily.EntriesAre | hoga/api/depth_daily.py:212-232 | An entry is visited if and only if its date, stock and source are in scope and its meta file is there |
| DepthDaily.ScanRows | hoga/api/depth_daily.py:233-258 | A new row is written if and only if the entry's fingerprint has changed, a sentinel where there is no peak |
| DepthDaily.ScanCounts | hoga/api/depth_daily.py:208-258 | Scanned is computed plus skipped plus without data, and the new rows are the computed and the sentinels |
| DepthDaily.SweepIsFromScratch | hoga/api/depth_daily.py:183-282 | If fingerprints identify contents, a sweep leaves every row in scope as computing from scratch would and every other row as it was |
| DepthDaily.RepeatSkipsAll | hoga/api/depth_daily.py:233-237 | Repeating a sweep skips all it scans and changes nothing |
| DepthDaily.RunsStayHonest | hoga/api/depth_daily.py:183-282 | However sweeps, captures and removals interleave, a row whose fingerprint is its capture's is right, so skipping never hides a wrong row |
| DepthDaily.KeysAreNeverLost | hoga/api/depth_daily.py:263-271 | No key that any sweep has written is ever lost |
| DepthDaily.CommitWritesItsKeys | hoga/api/depth_daily.py:263-271 | A commit leaves every key it computed in the store, whatever others wrote meanwhile |
| DepthDaily.CommitLeavesCurrent | hoga/api/depth_daily.py:233-271 | After a commit a capture's row is current, and then right, if and only if the sweep's own last row for it is of the present capture, or it has none and the row was current before |
| DepthDaily.SlowSweepOutdates | hoga/api/depth_daily.py:233-271 | The concrete run: a sweep computes, the stock is captured again, another sweep commits the new row, and the slow one then commits its outdated row over it |
| DepthDaily.SelectionCoversUsableDays | hoga/api/depth_daily.py:147-170 | A day has a selected row if and only if it has a usable one; the source is settled unless the best are unregistered |
| DepthDaily.SwappingLosesDays | hoga/api/depth_daily.py:153-157 | With filter and priority swapped, a usable day is lost if and only if some source that beats all its usable ones has only a sentinel |
| QueueRuntime.QueueLock.Acquire | hoga/api/ownership.py:269-299 | Acquiring keeps a lock already held, takes a free one, and is refused another's |
| QueueRuntime.QueueLock.Release | hoga/api/ownership.py:334-339 | Releasing is harmless for who does not hold the lock |
| QueueRuntime.CaptureQueueRuntime.BeginAttempt | hoga/api/capture_queue_runtime.py:53-69 | An attempt up to its await: skipped, failed, contended, or waiting with the lock |
| QueueRuntime.CaptureQueueRuntime.FinishAttempt | hoga/api/capture_queue_runtime.py:69-84 | The rest of an attempt: running with the next epoch, or failed or cancelled with the lock given back |
| QueueRuntime.StepKeepsInv | hoga/api/capture_queue_runtime.py:53-107 | Attempts, outcomes, shutdowns, ends and releases of any number of instances, serial for each, keep the ownership invariant |
| QueueRuntime.OneOwner | hoga/api/capture_queue_runtime.py:38-107 | At most one instance runs and it is ready; only an instance that waits, runs or is stopping holds the lock; queues are activated only while the lock is held; each epoch counts the activations; a disabled instance never owns or activates |
| QueueRuntime.UnfinishedAttemptsRelease | hoga/api/capture_queue_runtime.py:38-107 | At every moment of a run an instance with no attempt waiting that neither runs nor is stopping does not hold the lock, nor does one whose attempt has just ended without running |
| QueueRuntime.NextAttemptSucceeds | hoga/api/capture_queue_runtime.py:53-75 | When nothing waits, runs or is stopping the lock is free, and the next instance to try can take it and run |
| QueueRuntime.ShutdownDoesNotStopAWaitingAttempt | hoga/api/captures.py:1565-1567 | A shutdown that begins while an attempt waits does not keep it from activating and running |
| QueueRuntime.ShutdownIsFinal | hoga/api/capture_queue_runtime.py:53-107 | Whatever serial steps follow, an instance that is stopping stays so and activates nothing, if and only if no attempt of it waits |
| QueueRuntime.OnlyAWaitingAttemptOutlivesShutdown | hoga/api/capture_queue_runtime.py:53-107 | Over any run, an instance leaves its shutdown or activates after it only if an attempt waited when the shutdown began |
| QueueRuntime.WaitingAttemptDecidesShutdown | hoga/api/capture_queue_runtime.py:69-84 | The shutdown is final after the waiting attempt ends if and only if the attempt was cancelled |
| QueueRuntime.FailedAttemptForgetsShutdown | hoga/api/capture_queue_runtime.py:53-84 | If the waiting attempt fails instead, the next attempt is let through serially and can run: the shutdown is forgotten |
| QueueRuntime.OverlapBreaksOwnership | hoga/api/capture_queue_runtime.py:53-84 | From every state with an attempt waiting, a second one of the same instance leads to an activation without the lock and to two running instances, so serial attempts are needed |
| Markers.IndexOfFinds | frontend/scripts/gen-tokens.ts:222-223 | The index found is the first occurrence, and none found means there is none |
| Markers.ReplacementIsLocal | frontend/scripts/gen-tokens.ts:295-313 | The text through the begin marker and from the end marker on is kept, and the begin marker is still the one found |
| Markers.MarkerIsOutside | frontend/scripts/gen-tokens.ts:309-310 | After a replacement a one-line marker not in the payload is found only in the kept text, never in or across the payload |
| Markers.ReplacingTwiceIsOnce | frontend/scripts/gen-tokens.ts:295-313 | Replacing twice equals replacing once if and only if the payload does not contain the end marker |
| Markers.CssIsReplaceMarker | frontend/scripts/gen-tokens.ts:221-225 | The stylesheet's marker branch is the same operation, errors included |
| Markers.RewritingCssTwiceIsOnce | frontend/scripts/gen-tokens.ts:221-225 | Writing the stylesheet twice is writing it once if and only if the body does not contain the end marker; it fails exactly when there is none |
| Markers.CssMarkersAreProper | frontend/scripts/gen-tokens.ts:177-178 | The stylesheet's two markers are of one line, the end not inside the begin |
| Markers.DesignMarkersAreProper | frontend/scripts/gen-tokens.ts:250-254 | The document's three marker pairs are of one line, no end inside its begin |
| Markers.RewriteDesignMd | frontend/scripts/gen-tokens.ts:315-330 | The loop replaces the tables one after the other and stops at the first error |
| Markers.RegeneratingTwiceIsOnce | frontend/scripts/gen-tokens.ts:315-330 | Regenerating a document twice is regenerating it once, for any number of tables, some missing, whose stretches are apart and whose payloads contain no marker |
| Breadth.RollingFlags | hoga/market_breadth_insights.py:19-38 | The prefix-sum loop gives at each index the directly stated flags: nothing while any of the last 120 prices is missing, otherwise close strictly above each average |
| Breadth.StockSignals | hoga/market_breadth.py:70-94 | The loop over all stocks: three signals each on an explicit calendar, or which check failed |
| Breadth.FlagsAreSignals | hoga/market_breadth_insights.py:31-37 | At every session flags and signals agree: none if and only if the longest average is unavailable, and otherwise a flag exactly where the signal is above |
| Breadth.Persists | hoga/market_breadth_insights.py:41-63 | The streak is the number of rising steps at the end, a lower bound exactly when the step before is unknown; `up5` counts the last five when six scores are known |
| Breadth.FiveUpIsAStreak | hoga/market_breadth_insights.py:60-62 | Five rises out of five are exactly a streak of five or more |
| Breadth.EndpointChanges | hoga/market_breadth_insights.py:66-123 | The loop's report for two universes of flags, nothing while a flag is missing, or the error |
| Breadth.AttributionIsExact | hoga/market_breadth_insights.py:89-123 | Stock contributions, period contributions, gains and losses, and the difference of scores each sum to the change; improved, declined and unchanged divide the population |
| Breadth.AggregateCodes | hoga/market_breadth.py:97-110 | Counts of the four states for each period, or the error for an empty, repeated or unknown stock |
| Breadth.ScoresAgree | hoga/market_breadth.py:42-55 | For the same flags the aggregated score and the endpoint score are equal |
| Migration.MakePlan | scripts/migrate_kiwoom_live_venue_dir.py:88-134 | The plan lists exactly the files to move, each once, and those that stay as stale or as source meta |
| Migration.CaptureTree.ApplyMoves | scripts/migrate_kiwoom_live_venue_dir.py:153-168 | Files move one at a time; it stops where a destination exists and does not go on after an error |
| Migration.CaptureTree.Prune | scripts/migrate_kiwoom_live_venue_dir.py:221-225 | Pruning removes the listed paths and nothing else |
| Migration.CaptureTree.CleanUp | scripts/migrate_kiwoom_live_venue_dir.py:171-178 | After going back exactly the empty venue directories go |
| Migration.PlanJsonl | scripts/migrate_kiwoom_live_venue_dir.py:53-85 | The plan of the other root lists exactly the JSONL files to move, each once: in directories named in digits, forwards only where no directory is |
| Migration.CaptureTree.Run | scripts/migrate_kiwoom_live_venue_dir.py:181-231 | The whole program: nothing without `apply` or with nothing to do; the planned moves and then those of the JSONL plan; a stopped run prunes and cleans nothing; a completed one prunes if asked and cleans up after going back |
| Migration.PruningTakesOnlyStale | scripts/migrate_kiwoom_live_venue_dir.py:221-225 | After a completed run pruning takes the stale files and nothing else, a source's own meta file included |
| Migration.PruningLosesExactly | scripts/migrate_kiwoom_live_venue_dir.py:126-132 | Pruning after a completed run loses a content if and only if only stale files held it |
| Migration.DocumentedExactly | scripts/migrate_kiwoom_live_venue_dir.py:102-134 | A completed run moves every loose file of a directory without a `KRX` directory there, as the text says, if and only if every source directory with a loose file and some directory has that one |
| Migration.OtherVenueIsPruned | scripts/migrate_kiwoom_live_venue_dir.py:126-132 | The concrete failure: beside a directory `NXT` and without `KRX` a loose file is not planned but stale, and pruning takes its content's only copy |
| Migration.RerunIsSafeExactly | scripts/migrate_kiwoom_live_venue_dir.py:17-17 | A rerun after an interruption always goes through to the end, and ends where one uninterrupted run would if and only if no directory was left with some files moved and some not |
| Migration.LeftOver | scripts/migrate_kiwoom_live_venue_dir.py:126-133 | A file an interrupted run had not come to is planned again if and only if nothing of its directory was moved, and is stale otherwise unless it is the meta file |
| Migration.MadeDirectoryIsEnough | scripts/migrate_kiwoom_live_venue_dir.py:161-165 | Stopped between making the directory and the first rename, the file is not planned again, and stale unless it is the meta file |
| Migration.RerunPrunesTheRest | scripts/migrate_kiwoom_live_venue_dir.py:126-132 | The concrete failure: one of two files is moved, the rerun plans nothing, and with pruning it takes the other's only copy |
| Migration.NothingIsLost | scripts/migrate_kiwoom_live_venue_dir.py:153-168 | However far applying gets, every content is there as often as before and every path that is no source still holds what it held: nothing is overwritten |
| Migration.ForwardCompletes | scripts/migrate_kiwoom_live_venue_dir.py:153-168 | A forward run goes through to the end if and only if no file to be moved has the venue directory's name |
| Migration.LooseVenueFileStops | scripts/migrate_kiwoom_live_venue_dir.py:153-168 | The concrete failure: a loose file `KRX` is planned and stops the run at its own move |
| Migration.ReverseCompletes | scripts/migrate_kiwoom_live_venue_dir.py:113-168 | A run back goes through to the end if and only if no file that goes back has the name of something in its source directory |
| Migration.SourceMetaStopsTheWayBack | scripts/migrate_kiwoom_live_venue_dir.py:113-168 | The concrete failure: a source's own `meta.json` stops the run back at the venue's |
| Migration.ForwardIsDoneOnce | scripts/migrate_kiwoom_live_venue_dir.py:125-133 | After a completed forward run nothing more is planned to move |
| Migration.MigratedIsUntouched | scripts/migrate_kiwoom_live_venue_dir.py:126-132 | A directory migrated before is left as it is, loose files and all |
| Migration.ForwardsAndBack | scripts/migrate_kiwoom_live_venue_dir.py:88-178 | From a tree with no venue directories, forwards, back and the removal of empty venue directories restore exactly the tree there was |
| Calendar.TradingDaysInRange | hoga/api/calendar.py:216-255 | Inside the coverage the answer is, in order, exactly the listed days between the ends in real months, and the second raise is never reached; each error has its exact condition, a range ending in December 9999 included |
| Calendar.DayAnswer | hoga/api/calendar.py:282-301 | Within the coverage a day's answer is whether it is listed; beyond it there is none |
| Calendar.RangeAgreesWithDays | hoga/api/calendar.py:216-301 | Range and day agree on every date of a covered range if and only if no line in it has a month that does not exist |
| Calendar.ThirteenthMonthDisagrees | hoga/api/calendar.py:216-301 | The concrete failure: a line 20261300 is a trading day and in no range |
| Calendar.WeekdaysInRange | hoga/api/calendar.py:185-213 | Exactly the weekdays between two dates, in order; the last representable day as an end fails |
| Calendar.WeekdaysFollow | hoga/api/calendar.py:209-212 | The day after has the weekday after, across months and leap years |
| Calendar.AllWeekdaysInMonth | hoga/api/calendar.py:313-329 | The loop collects exactly the month's weekdays |
| Calendar.MonthIsExactUpToCoverage | hoga/api/calendar.py:394-427 | The month map is exact up to the coverage and every weekday after; it gives a reason if and only if the source is empty or a past weekday is not covered |
| Calendar.SessionGate.IsTradingSessionToday | hoga/api/calendar.py:136-182 | One question to the gate and what it remembers |
| Calendar.VerdictsHaveReasons | hoga/api/calendar.py:136-182 | Over any questions, a False verdict comes from a covered miss now or less than 60 seconds earlier, a True one from a calendar that listed the day, and none is given only beyond the coverage |

## Left out

- JSON text and frame encoding: a message comes with the tokens its encoder emits, and parsing is a parameter that undoes them; byte budgets other than the length of a part are not modelled.
- Replication.Replica.ApplyFrame: leaves the state alone when it raises, where Python keeps the sides of a patch written before the exception; `SnapshotProtocol.DeliveryNeverRaises` and `JournalReaders.ReadersNeverRaise` show that neither sender's own frames raise. Aliasing between decoded frames and replica state is not modelled: frames are values.
- Journaling.NativeJournal.Prepare: has no separate model of the generators `frames` and `initial_frames`, which are this method and `Commit`, or a first frame and `CommitFirst`, with any steps of other calls in between; in `JournalProtocol` any frame ever prepared may be committed at any later time, so any number of calls may overlap.
- JournalProtocol: a preparation that raises a `KeyError` changes nothing and is no step; hints and the native change they describe are one step; the account and the theorems on readers are about orderly runs, `JournalProtocol.AnyRunDeliversExactly` about all.
- Snapshots of native objects: `native_value` and the scalar computation of `ask_peak_state.snapshot` are a field of the native state, assumed not to contain minute lists.
- Python's equality across types, a missing side read as absent, and the order of dictionary iteration.
- Floating point: rounding, NaN other than through flat windows, and numpy's memory layout.
- Heatmap.Reaggregate: reads times on one clock, so the conversion from a calendar day to its midnight is a parameter; digits of dates are ASCII.
- PatternSearch.SearchHistory: leaves out the baseline of forward returns; stocks are slices of the corpus arrays rather than offsets into them.
- Correlation.ZNorm: takes the square root as a parameter; results hold for every function that satisfies `IsSqrt`.
- Executing.ComputeExecutor.Submit: the semaphore's queue of waiters, its fairness and thread mode are not modelled; a waiter takes a free slot in some step.
- Executing: cancelling a caller that waits or awaits changes nothing the executor counts but admission, so it has no step of its own beyond leaving.
- DepthDaily.DepthStore.Sweep: what DuckDB computes from one capture is a value of the capture, read in one step.
- DepthDaily.RunsStayHonest: assumes every write of a meta file has a time of its own, which is what the fingerprint relies on.
- QueueRuntime.CaptureQueueRuntime.FinishAttempt: the text of errors, timestamps and the back-off delays are not modelled.
- Markers: the first-run branch of `rewriteCss`, the token tables and the warnings.
- Breadth.EndpointChanges: stock codes are numbers, and a flag cannot be a value other than a boolean; `aggregate_groups` only repeats the aggregation for each group.
- Breadth.StockSignals: takes prices as numbers, so parsing them and refusing booleans is not modelled.
- Migration.CaptureTree.Run: an exception from the file system ends it like a stop, and what it prints is not modelled; the theorems on whole runs are about the captures' root, those on single moves about both.
- Migration.MakePlan: the date and stock directories are walked in one loop; digits in the names of date directories are ASCII.
- Migration.CaptureTree.ApplyMoves: moves files only; renaming a directory is not modelled.
- Calendar.TradingDaysInRange: a date is the number of its eight digits; reading the files and their caches is not modelled, the covered days are a parameter of every call.
- Calendar cell statuses, thread mode of the executor, venue partitions and candle buckets: short case splits.
- Sockets, processes, HTTP and UI code, broker clients and the other probes and benchmarks: I/O around code that is not shown.
