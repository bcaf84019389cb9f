# Verification of the tier-migration library

This project models `lib/object_mover.{hpp,cpp}`, the replayer that drives it, the analyser that reads its
trace and the two data placers, in the default build (without `USE_MICRO_TIERING`), and proves what they
guarantee.  `dafny verify dfyconfig.toml` verifies everything.

## What is modelled

**The store** (`store.dfy`).  An object name has a slot in each of three pools.  The cache slot is empty, holds
a full object, or holds a redirect.  A compound operation is all-or-nothing.  An operation through the cache
pool acts on the target of a redirect, except those that carry `set_redirect` or IGNORE_REDIRECT, which act on
the entry itself.  `copy_from` copies data and attributes and reports the version of its source.  Each change
gives an object a larger version, by any amount (`jump`), because librados draws versions from counters that
objects share.  `cmpxattr` NE passes when the attribute is absent; on an absent object every operation that
needs one fails with ENOENT.  `set_redirect` needs an entry.  The store itself is not in the repository, so
these rules are the model's assumptions; `lib/sample.cpp:108-124` is where the repository relies on them.

**The calls** (`mover_machine.dfy`, `object_mover.dfy`).  `Create`, `Move` and `Delete` are machines that issue
one store operation per step (`Issues`, `After`, `Step`).  The class `Mover.ObjectMover` holds the methods as
the program writes them, loops included; each is proved to go exactly where its machine goes (`Exec`), and so
to have every property that is proved of the machine.  What the surroundings do, plain writes, faults and
version jumps, is a script with one tick per operation.  A call that uses its script up is seen halfway.

**Any number of clients** (`crowd.dfy`, `survival.dfy`, `register.dfy`, `promotions.dfy`, `labels.dfy`, `names.dfy`).  A
run is a list of events: a mover begins, a mover issues its next operation (which may fail), a plain writer writes through
the cache pool.  An execution that the watcher posts again is one more mover.  A run over many names is, for each
name, that name's own run.

**Tasks and cells** (`tasks.dfy`, `pipeline.dfy`, `progress.dfy`, `replayer.dfy`).  The task manager is the class
`Tasks.TaskManager`.  `Tasks.Ledger` puts it among any number of submitters and workers; `Pipeline.Pipe` puts it
between the replayer's client thread, its result cells, the workers and the watcher, with `FinishTask` and
the store to `*err` as two separate steps.  `Replayer.Replay` holds the dispatch and drain loops.  `ReplayStore.Joint`
(`replay_store.dfy`) joins a replay of moves to FAST to the store: every execution of a task is a mover there, and
gets to `FinishTask` with what that mover came back with.

**Traces and placement** (`text.dfy`, `analyser.dfy`, `trace.dfy`, `placement.dfy`).  Splitting, printing and
reading numbers work on strings, so the agreement between trace writer and analyser is about the file's text.
The random draws of the placers are a parameter.

## What does not hold, and exactly when

- Mutual exclusion breaks when a plain write finds no entry in the cache pool while somebody holds the lock, as
  it does between the two halves of a promotion: the write creates an object without a lock, and a second mover
  gets in exactly then (`Crowd.WriteLeaksLockIff`, `Crowd.TwoHoldersAfterWrite`).  It breaks, too, in a lateral move
  whose fourth operation succeeds, because the dummy object has no lock (`Crowd.LateralMoveSharesLock`); if that
  operation fails, nobody gets in (`Crowd.FailedDummyKeepsLock`).  `Crowd.MutualExclusion` covers all runs in which
  neither happens.  `Crowd.SuitableMovesAreOrderly` says when no move is ever lateral: the object was created in
  FAST, so that its label stays "fast" for good, or all moves go to FAST or to where it was created.
- Even without faults a mover that asks for the lock dies if the holder has the name out of the cache pool
  (`Crowd.WaiterDiesIff`).
- The register property breaks at three steps, and `Register.AtomicRegister` covers all runs without them.
  A write between the two halves of a promotion is lost, and so is one before a redirect whose version check is
  mistaken; any other write that lands before a lateral move has removed its source survives the next operation
  (`Register.WriteIsLostIff`).
  A lateral move whose dummy object is put in place shows readers an empty object (`Register.DummyIsEmpty`); of the
  writes that land during an otherwise undisturbed lateral move, exactly those before its first operation are seen
  at its end, and all later ones are lost (`Register.LateralWriteIsLostIff`).
- The version check of a demotion can be mistaken when the demotion starts behind a redirect to the other lower pool,
  because the version that it asserts is then the redirect's own, and when a full object gets one of the last 2^31
  versions, because the `int` makes an older one look like it.  For an object labelled "fast" that is demoted to one
  tier any number of times, some run loses an update exactly in these cases (`Register.DemotionsAreSafeIff`).  So
  after a demotion, running it again is always safe, and a move on to the third tier is not
  (`Register.SafeAfterDemotion`).
- A demotion keeps a 64-bit version in an `int`.  It ends exactly when the version survives that
  (`Demotion.DemotionEndsIff`, `Demotion.ThroughIntExact`).
- `Create` in a lower tier erases what it has just written when the name is already redirected there, as it is
  when the watcher posts the call again (`MoveCorrect.CreateShowsDataIff`).
- A demotion that fails reports 0 (`Demotion.DemotionReportsZero`), some failures leave the lock set and some kill
  the client in `Unlock` (`Failures.OneFailure`).
- A promotion that returns early stores into its cell without asking `FinishTask`; the cell is still its own
  exactly when its task is open or has a winner that has yet to store its result
  (`Pipeline.EarlyReturnHitsOwnCellIff`, `Pipeline.EarlyReturnHitsReusedCell`).
- The read loop takes 0 for "busy", and 0 is also what reading an empty object returns.  A replay that has stored
  such a result can never end, nor can one that has stored an error; all others can (`Progress.CanEndIff`).
- The latency that the trace records starts at the last re-post, since `WatchTasks` overwrites `start`.  It starts at
  the first filing exactly when the task was never posted again (`Tasks.RecordedStartIsFirstIff`).
- Comments in `lib/sample.cpp:110` and `lib/sample.cpp:119` send modifications to the Storage Pool; the code, and this
  model, send them through the cache pool.

## Model

| member | source | states |
|---|---|---|
| Survival.DataSurvives | lib/object_mover.cpp:496-757 | After a `Create` in any tier, no run of any number of concurrent movers to any tiers, lateral ones included, with any operations failing and any movers stopping halfway, ever leaves the name without a full copy of its data. |
| Survival.CreatedDataSurvives | lib/object_mover.cpp:212-310 | The same, from the `Create` of an unused name on. |
| Survival.LateralStrands | lib/object_mover.cpp:686-707 | A lateral move that has removed its source has put the only copy in the other pool under the wrong label, and every other mover is outside. |
| Survival.StrandedKept | lib/object_mover.cpp:640-749 | From then on no step of any mover can find or remove that copy by mistake. |
| Register.AtomicRegister | lib/object_mover.cpp:496-757 | With any movers, writers and faults interleaved, short of the three steps that break it, a reader sees the last value written, never an older copy; while the name is out of the cache pool, that value is in a lower one. |
| Register.HolderKeepsRegister | lib/object_mover.cpp:497-706 | Each operation of the lock holder, a mistaken redirect apart, keeps the visible value and what the holder's copies are worth. |
| Register.DemotionsAreSafeIff | lib/object_mover.cpp:579-637 | For an object labelled "fast" and any number of demotions to one tier, no run loses an update exactly when there is no redirect to the other pool whose version survives the `int` and no full object gets one of the last 2^31 versions. |
| Register.SafeAfterDemotion | lib/object_mover.cpp:618-636 | After any undisturbed demotion, running it again is safe; a move on to the third tier is safe exactly when the redirect's version does not survive the `int`. |
| Register.WriteIsLostIff | lib/object_mover.cpp:522-637 | A write between two operations of the lock holder is lost exactly when the second one is the copy of a promotion, or a redirect to an older copy that passes the version check. |
| Register.DummyIsEmpty | lib/object_mover.cpp:709-727 | A lateral move that puts its dummy object in place keeps the register exactly when the value was empty. |
| Register.LateralWriteIsLostIff | lib/object_mover.cpp:640-750 | A write just before an operation of a lateral move that is not disturbed any more is seen at its end exactly when that operation was the first; otherwise the old value is. |
| Register.FastObjectsStayReachable | lib/object_mover.cpp:618-637 | An object labelled "fast" is readable and so labelled at every point of every run, and its lock has at most one holder, with no condition on movers, writers or faults. |
| Crowd.MutualExclusion | lib/object_mover.cpp:796-844 | In every run without a leaking write and without a lateral dummy put in place, at most one mover is between `Lock` and `Unlock` although the lock travels between pools; in fault-free runs the lock is set exactly while it is held and the holder never trips an assertion. |
| Crowd.SuitableMovesAreOrderly | lib/object_mover.cpp:638-640 | If the object was created in FAST, or all moves go to FAST or to where it was created, no move is lateral, and only a write that leaks disturbs the order. |
| Crowd.OrderedKept | lib/object_mover.cpp:497-751 | Every event that finds the name, short of a lateral removal, keeps the holder alone and its expectations of the pools true. |
| Crowd.WriteLeaksLockIff | lib/object_mover.cpp:506-537 | Anywhere between `Lock` and `Unlock`, a plain write leaves the lock free for a second mover exactly when the cache pool has no entry or an open dummy object. |
| Crowd.WaiterDiesIff | lib/object_mover.cpp:797-820 | A mover that asks for a lock that is held waits, or, exactly when the holder has the name out of the cache pool, dies, or, exactly when there is an open dummy object, gets in. |
| Crowd.WorkGoesOn | lib/object_mover.cpp:497-753 | What these two rely on holds at each operation between `Lock` and `Unlock`, the whole lateral branch included. |
| Crowd.TwoHoldersAfterWrite | lib/object_mover.cpp:522-537 | A run from a freshly created object with two holders at once. |
| Crowd.LateralMoveSharesLock | lib/object_mover.cpp:709-726 | After its dummy object is in place, a lateral move shares the lock with whoever asks next. |
| Crowd.FailedDummyKeepsLock | lib/object_mover.cpp:709-726 | If the dummy object cannot be created, the only copy stays locked and out of reach, and later movers die in `Lock`. |
| Crowd.LockTakesIff | lib/object_mover.cpp:796-821 | `Lock` on any state: taken exactly when the attribute is not "1", a missing one included; waits exactly when it is "1"; dies exactly without an object. |
| Crowd.UnlockEndsIff | lib/object_mover.cpp:823-844 | `Unlock` on any state: ends the call exactly when the attribute is "1", and otherwise dies and changes nothing. |
| Labels.RedirectsNameTheirPool | lib/object_mover.cpp:618-626 | In every run of movers and writers with any faults, a redirect has no label, or "storage" if it points to the storage pool and "archive" if to the archive pool. |
| Names.ExclusionPerName | lib/object_mover.cpp:796-844 | Each name has at most one lock holder in runs over any number of names, if its own events are orderly. |
| Demotion.DemotionIsBounded | lib/object_mover.cpp:583-637 | If all versions reached survive the `int`, a demotion copies at most once more than it is disturbed by writes or faults, and has ended within two operations per round and an unlock. |
| Demotion.DemotionEndsIff | lib/object_mover.cpp:583-637 | An undisturbed demotion ends exactly when the version it copied, kept in an `int`, is the version of the cache entry; otherwise it copies for ever, and the object stays as it is, lock included. |
| Store.VersionsGrow | lib/object_mover.cpp:607-611 | An operation that changes a cache entry and leaves one gives it a larger version, unless it brings an object in from another pool; the version check rests on this. |
| Demotion.ThroughIntExact | lib/object_mover.cpp:587-611 | Which 64-bit versions survive the `int`. |
| Demotion.DemotionReportsZero | lib/object_mover.cpp:585-606 | However it fares, a demotion from FAST that returns reports 0. |
| Demotion.FailedCopyReportsZero | lib/object_mover.cpp:601-606 | A failed copy is reported as 0 with the object unmoved and unlocked. |
| MoveCorrect.MoveIsCorrectIff | lib/object_mover.cpp:496-757 | For all nine tier pairs: one full copy, in the pool asked for, data unchanged, redirect iff not FAST, unlocked, label truthful again in FAST, return value 0; except that a demotion whose version does not survive the `int` never ends. |
| MoveCorrect.MoveLeaves | lib/object_mover.cpp:496-757 | The same slot by slot for all nine pairs, with the labels of the object and of the redirect written out: "storage" or "archive" after a demotion, none after a lateral move, the old one if the object stays. |
| MoveCorrect.PromotionIsIdempotent | lib/object_mover.cpp:497-567 | Any positive number of runs of `Move(FAST)` leaves what one run leaves. |
| Promotions.PromotionsEndInFast | lib/object_mover.cpp:497-567 | The same for any number of promotions at once, operation by operation: when all have ended, the object is the only copy, in FAST, truthful, unlocked, with its data, even if some died waiting; whoever comes back reports 0. |
| MoveCorrect.CreatePlaces | lib/object_mover.cpp:212-310 | A `Create` of an unused name gives one truthfully labelled, unlocked object in its tier. |
| MoveCorrect.CreateLeaves | lib/object_mover.cpp:212-310 | The same slot by slot, with the labels written out; the redirect has none. |
| MoveCorrect.CreateShowsDataIff | lib/object_mover.cpp:234-306 | `Create` on any state shows its data exactly when its dummy write does not go through a redirect to the same pool. |
| MoveCorrect.DeleteEmptiesIff | lib/object_mover.cpp:881-917 | `Delete` empties all pools exactly when the visible object is the only one; behind a dangling redirect it returns early and changes nothing. |
| MoveCorrect.CreateMoveDelete | lib/sample.cpp:92-130 | `Create`, `Move`, `Delete` of a fresh name leave nothing behind, for any tiers and data. |
| Failures.OneFailure | lib/object_mover.cpp:496-844 | For all nine tier pairs and each operation of `Move` that can fail, `Lock` and `Unlock` included: what is reported, where the copies are, and whether the lock stays set. |
| Failures.CreateFails | lib/object_mover.cpp:214-306 | What `Create` reports and leaves when one of its operations fails, on any state. |
| Failures.DeleteFails | lib/object_mover.cpp:881-917 | What `Delete` reports and leaves when one of its operations fails; ENOENT from the second one counts as success. |
| Mover.ObjectMover.AioOperate | lib/object_mover.cpp:88-110 | An operation takes the call one step of its machine and touches no other name. |
| Mover.ObjectMover.Lock | lib/object_mover.cpp:796-821 | The retry loop ends with the lock taken, dead, or still waiting, as its machine does. |
| Mover.ObjectMover.Unlock | lib/object_mover.cpp:823-844 | The lock is dropped or the client is dead. |
| Mover.ObjectMover.GetLocation | lib/object_mover.cpp:764-794 | The tier returned is what the label "fast", "slow" or "archive" says, and decides the branch that the machine takes; other labels kill the client. |
| Mover.ObjectMover.Move | lib/object_mover.cpp:342-762 | `Move` ends in the same state, with the same kind of exit, as its machine, for every script. |
| Mover.ObjectMover.MoveUp | lib/object_mover.cpp:497-567 | The promotion branch follows the machine. |
| Mover.ObjectMover.MoveDown | lib/object_mover.cpp:569-753 | The other branch follows the machine, including the copy loop. |
| Mover.ObjectMover.MoveAcross | lib/object_mover.cpp:638-750 | The five operations of a lateral move follow the machine. |
| Mover.ObjectMover.Create | lib/object_mover.cpp:212-310 | `Create` ends where its machine ends. |
| Mover.ObjectMover.Delete | lib/object_mover.cpp:881-917 | `Delete` ends where its machine ends. |
| Tasks.TaskManager.GetTid | lib/object_mover.hpp:267-272 | Each call returns a fresh id. |
| Tasks.TaskManager.StartTask | lib/object_mover.hpp:189-199 | Adds exactly the new entry. |
| Tasks.TaskManager.FinishTask | lib/object_mover.hpp:200-214 | True exactly when the task was open; then exactly that entry is gone and its start and finish lines are written, field by field. |
| Tasks.TaskManager.WatchTasks | lib/object_mover.hpp:219-232 | One pass posts exactly the tasks older than 20000 ms, once each, in table order, sets their start to now, and leaves every other entry alone. |
| Tasks.AtMostOnce | lib/object_mover.hpp:189-214 | With submitters, workers and watcher interleaved, each task wins at most once, never reopens, and `StartTask` never meets an open id. |
| Tasks.RecordedStartIsFirstIff | lib/object_mover.hpp:200-226 | The recorded start is the time of the first filing exactly when the task was never posted again; each time that it was takes at least 20001 ms off the recorded latency. |
| Tasks.RepostRate | lib/object_mover.hpp:215-233 | Copies posted are one plus the renewals, renewals are at most elapsed time over 20001 ms, and no start lies in the future. |
| Tasks.WatchIsPrompt | lib/object_mover.hpp:215-233 | Right after any pass in any run no open task is older than 20000 ms; each that was has exactly one copy more, and no other task has. |
| Pipeline.SlotSafety | benchmark/replayer.cpp:190-252 | A result is stored into a cell only by the one winner of the task that the cell was last handed to, once; until then the cell reads busy; the client claims a cell only when every task that it was ever handed has its result. |
| Pipeline.SoundKept | benchmark/replayer.cpp:190-252 | Every step of client, workers and watcher keeps the invariant that links cells, table and executions. |
| Pipeline.StepCounts | benchmark/replayer.cpp:190-252 | Submitted tasks are delivered or in flight, and twice the objects left plus the tasks in flight goes down by one at each submission and delivery, and at nothing else. |
| Pipeline.DispatchIsExact | benchmark/replayer.cpp:289-337 | Objects are submitted in list order and once each, never more in flight than cells, at most two units of work per object; when the drain ends, all were submitted and each result stored once. |
| Pipeline.NothingIsLost | lib/object_mover.hpp:215-233 | Whatever a cell waits for, a step that brings its result nearer is enabled. |
| Pipeline.EarlyReturnHitsOwnCellIff | lib/object_mover.cpp:516-520 | An early return finds its cell still meant for its own task exactly when the task is open or has a winner that has yet to store its result. |
| Progress.CanEndIff | benchmark/replayer.cpp:75-124 | From any point of any replay the drain loop can still end exactly when every result stored or won is one that the loops take for finished, no error has been found, and there is a cell or nothing left to submit. |
| Progress.LookIsExact | benchmark/replayer.cpp:80-100 | A cell that reads above 0 (reads) or 0 (writes, moves) is claimed or counted; a negative number (reads), or one that is neither 0 nor 1, stops the replay; the busy mark (0 for reads, 1 for others) is passed over. |
| Progress.FailsIff | benchmark/replayer.cpp:91-94 | The client stops at an error that it looks at, and at nothing else. |
| Progress.AbortMeansError | benchmark/replayer.cpp:91-94 | A replay that has aborted has in some cell an error that one of its executions came back with. |
| Progress.GoodRunsCanEnd | benchmark/replayer.cpp:75-124 | If all reads bring some bytes, or all writes or moves return 0, the replay never aborts and, given a cell, can always still end. |
| Pipeline.CopiesAreConserved | lib/object_mover.hpp:215-233 | Every copy of a task ever posted is queued or running, or has come to its end once: it lost in `FinishTask`, stored its result, or returned early. |
| Pipeline.TasksAreDescribed | lib/object_mover.hpp:99-142 | Every open task carries the name of its own object in the list, the letter of its operation and its tier. |
| Pipeline.FilingIsExact | lib/object_mover.hpp:189-199 | The record filed for the next object, field by field, with the time of its filing. |
| Pipeline.EarlyReturnHitsReusedCell | lib/object_mover.cpp:516-520 | A run of promotions in which a stale early return overwrites a cell that was claimed for the next object. |
| ReplayStore.DrainedReplayPromotes | benchmark/replayer.cpp:289-337 | A replay of moves to FAST in which no store operation fails never meets an error and never returns early, and when it drains, every listed object is in FAST, truthfully labelled, with its data. |
| Replayer.Replay.Run | benchmark/replayer.cpp:289-337 | The loops return only when all objects were submitted, all results stored once, no cell waits and all cells hold the number of a finished operation; or with a cell that holds an error. |
| Replayer.Replay.Place | benchmark/replayer.cpp:190-228 | The scan with its retry puts one object into one idle cell. |
| Replayer.Replay.Drain | benchmark/replayer.cpp:232-252 | The wait loop ends only when it has seen every cell idle in one pass. |
| Text.Split | benchmark/analyser.cpp:25-33 | The `getline` loop computes `Fields`. |
| Text.JoinOfFields | benchmark/analyser.cpp:25-33 | Joining the fields gives the text back, less one trailing delimiter. |
| Text.FieldsOfJoinIff | benchmark/replayer.cpp:25-33 | Splitting a join gives delimiter-free fields back exactly when the last one is not empty. |
| Text.AtolOfDecimalIff | benchmark/analyser.cpp:57 | A printed time is read back unchanged exactly when it fits a `long`. |
| Text.AtolReads | benchmark/analyser.cpp:57 | What `atol` makes of blanks, a sign, digits and text after them, up to the limits of a `long`. |
| Analyser.Analyse | benchmark/analyser.cpp:51-98 | The main loop computes `Judge` of the file's lines. |
| Analyser.AbortsIff | benchmark/analyser.cpp:76-81 | The analyser gets through a trace exactly when no prefix has more finishes than starts of some object. |
| Analyser.QueuesAreFifo | benchmark/analyser.cpp:66-94 | What is queued for an object is its starts without as many of the earliest as it has finishes. |
| Analyser.TotalIsConserved | benchmark/analyser.cpp:82-93 | Modulo 2^64 the total is finishes less starts plus what is queued; the count is the finishes; no queue is empty. |
| Analyser.SpanIsExact | benchmark/analyser.cpp:59-64 | The ends of the elapsed time are the earliest and the latest time of the trace. |
| Analyser.TextVerdict | benchmark/analyser.cpp:51-98 | On any text at all: when the analyser aborts, when it stops at a line with too few fields, and otherwise a count, total, queues and span that are what the lines say. |
| Analyser.ReportIsExact | benchmark/analyser.cpp:97-98 | For a text that the analyser gets through: the average is the total over the number of finishes, rounded down; the elapsed time is the latest time less the earliest; without a finish it divides by zero. |
| Analyser.ParseIff | benchmark/analyser.cpp:52-57 | A line is read if it has five fields or more, and the first, fourth and fifth are what counts. |
| Trace.LineIsParsed | lib/object_mover.hpp:205-208 | A trace line with clean names is read back as it was written. |
| Trace.LineFields | lib/object_mover.hpp:206-207 | The five fields of a printed line, in order. |
| Trace.TextIsJudged | benchmark/analyser.cpp:51-95 | On the text of a clean trace the analyser computes what it computes on its records. |
| Trace.AnalyserAgrees | lib/object_mover.hpp:200-214 | For traces of any runs of the task manager, one after the other, the analyser does not abort, ends with nothing queued, counts every finished task and totals their times; it prints their mean, and the last finish less the first start. |
| Placement.PlaceHinted | benchmark/data_placer_hint.cpp:46-140 | The draws are cut into one piece per file, no longer than fills the file's share of the bandwidth, and an object is on its SSD list exactly when a draw of that piece picks its index; the split is stable; aborts exactly on repeated objects; goes on sampling exactly as long as the draws fall short of a quota. |
| Placement.PlaceOblivious | benchmark/data_placer.cpp:46-151 | No more draws than fill the global share decide all files: an object is on its SSD list exactly when a draw picks it; the split is stable and the SSD lists add up to the global quota; aborts exactly on repeated objects; goes on sampling exactly as long as the draws fall short of the quota. |
| Placement.PoliciesAgree | benchmark/data_placer_hint.cpp:98 | The oblivious quota exceeds the sum of the hinted ones by exactly the remainders that these round away, which is between 0 and one less than the number of files. |
| Placement.Sample | benchmark/data_placer_hint.cpp:99-103 | The sample is the indices of the shortest run of draws that fills the quota, or of all draws if none does. |
| Placement.SplitByIndex | benchmark/data_placer_hint.cpp:104-112 | The two lists weave back into the file by the indices drawn. |
| Placement.SplitByMembership | benchmark/data_placer.cpp:109-118 | The two lists weave back into the file by membership in the chosen set. |
| Placement.HasRepeats | benchmark/data_placer.cpp:50-73 | Counting finds a repeated object exactly when there is one. |
| Placement.WeaveCounts | benchmark/data_placer.cpp:109-118 | Lists that weave into a file hold its objects, each as often as the file does. |

## Left out

- Crowd.MutualExclusion: leaves out runs from a lateral dummy object or a leaking write on, which let a second mover in (Crowd.LateralMoveSharesLock, Crowd.WriteLeaksLockIff), and `Create` and `Delete` on the name of a running `Move`, which take no lock at all.
- Register.AtomicRegister: leaves out runs from one of three steps on, a write between the halves of a promotion, a lateral dummy object, a mistaken redirect, which are the steps that lose a value (Register.WriteIsLostIff, Register.DummyIsEmpty).
- Register.DemotionsAreSafeIff: to say that versions from 2^64 - 2^31 on do lose an update, takes full objects that start below 2^64 - 3 * 2^32, so that the run has room.
- MoveCorrect.MoveIsCorrectIff: starts from truthful labels; what moves from stale labels keep is stated by Survival.DataSurvives and Register.FastObjectsStayReachable.
- Demotion.DemotionIsBounded: takes versions that survive the `int`; Demotion.DemotionEndsIff says what happens to others.
- Failures.OneFailure: takes demotions whose version survives the `int`; the others do not end even without a failure (Demotion.DemotionEndsIff).
- Mover.ObjectMover.AioOperate: takes the operation object that line 611 uses again as a fresh one, and an operation that reports a failure as one that had no effect.
- Pipeline.SlotSafety: leaves out executions that return early, for which it is false (Pipeline.EarlyReturnHitsOwnCellIff), and guards only the result cell, not the buffer that a stale read may still fill.
- ReplayStore.DrainedReplayPromotes: takes an execution whose mover has died as one that never gets to `FinishTask`; in the program its assertion ends the whole process.
- Pipeline.NothingIsLost: says which steps are enabled, not that a scheduler takes them; Progress.CanEndIff, likewise, that they lead to the end.
- Analyser.Analyse: counts finishes without the 32-bit limit of `count`.
- Placement.PlaceHinted: computes `n * B_SSD` without wrap-around and takes bandwidths that are not negative.
- Placement.PlaceOblivious: takes the order in which the map lists its keys as a parameter; any order will do.
- `Session`, librados, completions, reconnecting and the network: the store's rules stand for them.
- The branches under `USE_MICRO_TIERING`, and `lib/object_mover_c.cpp` with `CRead`: compiled out, and a thin wrapper.
- `SessionPool`, latency printing, destructors, `sleep`, thread creation and data races on the result cells (each access is one step).
- `benchmark/benchmark.cpp` and `benchmark/replayer_single_reader.cpp`: the replayer's loop again.
- Argument and file handling, `XGC1/`, and the deployment scripts.
