# Verified model of JobCtrl's concurrent and crash-prone cores

JobCtrl installs, updates and supervises a local application, drives a browser extension that
queues captures and runs discovery tasks, and keeps a small telemetry service. This project models
the parts of it that are hard to get right because something else moves at the same time, or because
power may fail between two writes, and proves what those parts promise.

| file | what it models |
|---|---|
| Kernel, Census, Drain | a process table that changes between any two reads; the census that declares an execution scope empty; the drain that signals what is left |
| Ownership | the legacy closure over parent links |
| Executor | one discovery browser task: abort, late answers, cleanup, and other tasks in the same browser |
| PromiseChain, CaptureStore, CaptureQueue, FlushOutcome, QueueRefinement, FlushIsolation, FlushReport | the capture queue: its promise-chain lock, its storage operations, the atomic queue, the refinement between them, what a flush accomplishes, and what it does to items enqueued while it runs |
| ChannelPolicy, Transitions, Lifecycle | channel policy; update, rollback, recovery and backup over two databases, a selector, an active record and a journal, with a crash before any durable write |
| Paths, Manifest, Download | lexical paths against a walk; the file list of a signed manifest; the resumable archive download |
| Wrappers | optional values, results and digest texts that the others share |
| Truncate, Retention, Registry | cutting UTF-16 text to UTF-8 bytes; rate windows and expiry; launch gates, the runtime registry and execution receipts |

Where the program changes things step by step the model is a class or a method with a loop, tied to a
specification function; where several parties interleave it is a state machine whose runs are
sequences of steps, and the theorems are about every run.

## How to read it

* **Census.** A `History` is one whole run of the kernel. Each read of a `Host` happens at its `now`,
  and `Wait` lets any number of kernel events pass before it. The kernel is taken to fork members only
  from live members, to give a PID out again only after it was reaped, to give no two processes one
  birth identity, never to root a second process in an existing scope, and to keep the account of
  processes in an owned scope. `failures` counts the calls the kernel has failed, so that what holds
  "unless something failed" can be said. The inspecting command
  itself runs outside the scopes it inspects.
* **Drain.** The log of sent signals keeps apart the birth a signal was meant for and the birth that had
  the PID when it arrived. The program checks the first and cannot hold the second still, so the
  promises are about whom signals are meant for, and `Drain.HitsMeantExactlyUnlessReaped` says exactly
  when that is who was hit. A `Pass` records what one round of the drain found and when it ended.
* **Queue.** `trail` records what the server answered and what the storage said about an item, in order;
  what a flush reports is compared with the part of it that came since the flush began.
* **Executor.** Each browser call is sent, answered (its effect happens) and settled (its callbacks
  run) in three separate steps, so that every late answer is a run. Any call may be refused, the
  closing of an open tab and the removal of rules included; `tabKept` and `rulesKept` record such a
  refusal, except one of a close while the tab is being moved to a window, after which the move's own
  late callback closes it again.
* **Lifecycle.** `budget` is how many more durable writes a command lives for, so quantifying over it is
  quantifying over the crash point. `Obstacle` stands for every check outside this model (file
  integrity, schema, spend admission, disk errors): it may refuse at any place where the program checks
  something of the kind. `Safe` is required of the starting state only and says that no torn pair is
  unfenced; it holds of any journal, also of one that another controller left, as long as the pair is
  whole. `Inv` adds that the journal is one this controller wrote. A database is the restore that put it
  there and the set of releases that have written to it. `Begin` is modelled as `store.go` has it: a
  durable journal in a state that is not resumable. Random journal ids are taken to be fresh; `handed`
  are the ids that some started release was told, which is how a later start can come from the
  environment alone.
* **Retention.** A run is a sequence of single SQL statements, each with the clock its request read
  before it, so statements of different requests and sweeps interleave and may run late.
* **Findings.** Proved about the code as it is: a signal can hit a process that took the PID after the
  check, outside every owned scope (`Drain.StrangersCanBeHit`); if Chrome refuses to close a tab, the
  cleanup leaves it open, navigated and without its guard (`Executor.RefusedCloseUnguards`, and never
  otherwise, by `Executor.GuardBeforeNavigation`); two discovery tasks can have one rule pair
  (`RuleNumbers.TwoTasksShareAPair`) and disturb one another exactly then
  (`Executor.ClearExactlyWhenBasesDiffer`); a recovery cut off after its first write is refused for
  good (`Transitions.RecoveryCutShortIsNeverRetried`); component sizes that wrap a 64-bit word are
  accepted (`Manifest.WrappedSizesAreAccepted`, with the exact condition in
  `Manifest.AcceptedManifestsAddUp`); a full-size partial archive with a wrong digest is never deleted
  and blocks every later download (`Download.StuckExactly`), and one wrong answer makes one
  (`Download.OneWrongAnswerSticks`); a fitting lone high surrogate is dropped (`Truncate.TruncateUtf8`
  states exactly when); a rate statement that runs twenty-two hours late can exceed its limit
  (`Retention.LaterThanSlackExceedsTheLimit`, never earlier by `Retention.LimitsHold`).

## Model

| member | source | states |
|---|---|---|
| Kernel.OlderRowsWereThere | launcher/internal/launcher/process_darwin.go:38-55 | A row read later with an older birth identity sat at the same PID, in the same scope, at every earlier time, and a zombie in between never came back to life. |
| Kernel.SurvivorsWereThere | launcher/internal/launcher/process_darwin.go:38-55 | Whoever was born before one moment and is alive at a later one was alive at every moment in between. |
| Kernel.GoneMeansDeparted | launcher/internal/launcher/process_darwin.go:38-55 | A birth once alive at a PID and not alive there any more is alive nowhere. |
| Kernel.DepartedForGood | launcher/internal/launcher/owned_processes_darwin.go:317-319 | A birth that nobody alive has is never had by anybody again. |
| Kernel.ExtinctionIsForever | launcher/internal/launcher/owned_processes_darwin.go:565-566 | Kernel membership is durable authority: an owned scope that has no live member at one moment has none at any later moment of the run. |
| Census.Host.ListPids | launcher/internal/launcher/owned_processes_darwin.go:64-88 | One atomic listing of exactly the account's PIDs at the moment of the read, zombies included. |
| Census.Host.BsdInfo | launcher/internal/launcher/owned_processes_darwin.go:751-762 | One atomic read of a row, zombies included; ESRCH only if no row is there. |
| Census.Host.StartIdentity | launcher/internal/launcher/process_darwin.go:38-55 | One atomic read of a live process's birth identity; zombies answer ESRCH. |
| Census.Host.Coalition | launcher/internal/launcher/owned_execution_darwin.go:111-125 | One atomic read of a live process's scope; only live tasks answer. |
| Census.Host.TaskCount | launcher/internal/launcher/owned_execution_darwin.go:353 | One atomic count of a scope's live tasks; ESRCH about a scope answered for before proves it extinct. |
| Census.Host.Kill | launcher/internal/launcher/owned_processes_darwin.go:342-344 | The signal goes to whatever process has the PID at the moment it arrives, and the log records that process, or that there was none, beside the birth it was meant for; an empty PID is no error. |
| Census.Inspect | launcher/internal/launcher/owned_processes_darwin.go:695-738 | A sound inspection records exactly the row that PID had at one moment between the two identity reads, with its scope; it is unsound only if a read failed, something happened or the PID was empty; and unless a read failed it reports a member that lives through it. |
| Census.SameBirthSameScope | launcher/internal/launcher/owned_processes_darwin.go:712-725 | A PID with the same birth at two reads was the same process in the same scope at every read in between. |
| Census.InspectAll | launcher/internal/launcher/owned_processes_darwin.go:690-738 | One pass over the listed PIDs: sound rows with the moment each was read, a member for every process of an owned scope that lives through the pass unless a read failed, and incomplete only when something was disturbed. |
| Census.Inventory | launcher/internal/launcher/owned_processes_darwin.go:674-749 | A complete inventory is faithful: it holds, for every PID of the account except the caller, what that PID really was at some moment of the scan, and its two listings are equal; it is complete whenever nothing happens and no read fails; and unless a read failed it lists every process of an owned scope that lived through it. |
| Census.StillInventoriesAgree | launcher/internal/launcher/owned_processes_darwin.go:651-654 | When nothing happens in between, two complete inventories are equal. |
| Census.EmptyCensusIsSound | launcher/internal/launcher/owned_processes_darwin.go:651-661 | Two complete equal inventories without a member of a scope prove that the scope had no live member when the second listed its PIDs and never has one again, under every interleaving of fork, exit, reap and PID reuse, whatever the closing listings said. |
| Census.OneInventoryIsNotEnough | launcher/internal/launcher/owned_processes_darwin.go:663-666 | A concrete run in which one complete fenced inventory shows no member while a member is alive: the second inventory is necessary. |
| Census.ForkIntoReapedPidIsARun | launcher/internal/launcher/owned_processes_darwin.go:663-666 | That run obeys every rule of the kernel model. |
| Census.ScopedTaskZero | launcher/internal/launcher/owned_processes_darwin.go:508-563 | A known zero means the scope is extinct from now on, a known non-zero that it has a live member now; for a witnessed or attested scope the answer is known unless the count failed, and an unknown coalition counts as empty only for such a scope. |
| Census.CountScopes | launcher/internal/launcher/owned_processes_darwin.go:588-600 | All counters zero proves every wanted scope extinct from now on; for witnessed or attested scopes one sweep without a failure decides; a counter is non-zero only if a member was alive; scopes are witnessed only when proved empty. |
| Census.WantedKeepsExactly | launcher/internal/launcher/owned_processes_darwin.go:615-630 | The result holds exactly the members of wanted scopes. |
| Census.DiscoverScopedProcesses | launcher/internal/launcher/owned_processes_darwin.go:567-661 | "Empty" proves every wanted scope extinct for the whole future; "found" lists at least one and only processes that were live members during the call, and unless a read failed every member that lived through it; an inspection fails only if a read did; and when nothing happens and nothing fails there is a verdict. |
| Census.ProvenEmpty | launcher/internal/launcher/owned_processes_darwin.go:651-654 | The inventory comparison of the loop meets the premises of the soundness theorem for every wanted scope at once. |
| Drain.HitIsMeantOrYounger | launcher/internal/launcher/owned_processes_darwin.go:309-346 | Whatever process a signal hits is the one it was meant for or one born after that one was last verified. |
| Drain.HitsMeantExactlyUnlessReaped | launcher/internal/launcher/owned_processes_darwin.go:309-346 | A signal hits the process it was meant for if and only if that process was not reaped between its verification and the signal. |
| Drain.ReceiversAreTreatedGently | launcher/internal/launcher/owned_processes_darwin.go:398-405 | A process that only gets signals meant for it gets none twice and no kill before a freeze that hit it. |
| Drain.NobodyElseIsHit | launcher/internal/launcher/owned_processes_darwin.go:317-345 | If no target is reaped between its verification and its signal, every signal hits the process it was meant for. |
| Drain.StrangersCanBeHit | launcher/internal/launcher/owned_processes_darwin.go:317-345 | A run of the kernel in which a verified member exits, is reaped, and its PID goes to a process of no owned scope before the signal arrives: the stranger is hit. |
| Drain.SignalDiscovered | launcher/internal/launcher/owned_processes_darwin.go:309-346 | A signal is only sent after the birth it is meant for was seen live in its scope between two identity reads, and the log tells when that was and who was hit; "already gone" means that birth is not live; it is unsafe only if a call failed or something happened. |
| Drain.DeadStaysDead | launcher/internal/launcher/owned_processes_darwin.go:317-319 | A birth that is not live at its PID is never live there again, so dropping it from the books is final. |
| Drain.SignalOne | launcher/internal/launcher/owned_processes_darwin.go:378-407 | One pass over one tracked process: unless something fails, either it has departed or this pass's signal has been meant for it, once; it is forgotten only when it has departed, and no entry of the books lacks its signal. |
| Drain.Ask | launcher/internal/launcher/owned_processes_darwin.go:404-406 | The polite signal is sent, meant for the tracked birth only, unless that birth has departed or something fails. |
| Drain.FrozenFirst | launcher/internal/launcher/owned_processes_darwin.go:398-405 | A birth that is seen alive after a signal meant for it was struck by that signal itself, so a freeze that a kill follows did freeze the kill's target. |
| Drain.FreezeAndSlay | launcher/internal/launcher/owned_processes_darwin.go:398-405 | The kill is sent unless the birth has departed or something fails, and is only meant for a birth that an earlier freeze really hit. |
| Drain.SignalAll | launcher/internal/launcher/owned_processes_darwin.go:378-407 | A pass over all tracked processes in any order: unless something fails, this pass's signal has been meant for each of them that has not departed, only departed ones are forgotten, no signal is meant for a birth twice and no kill for a birth that was not frozen. |
| Drain.TrackingFoundMembers | launcher/internal/launcher/owned_processes_darwin.go:371-373 | Whatever the census found may be tracked: it was alive during this drain. |
| Drain.OnePass | launcher/internal/launcher/owned_processes_darwin.go:366-409 | One census and the pass over everything tracked and found: the pass's signal has been meant for all of them that are left. |
| Drain.OnePassMore | launcher/internal/launcher/owned_processes_darwin.go:366-409 | Every member that a pass's census found and, unless something failed, every process of a wanted scope that lived through the pass is meant by that pass's signal. |
| Drain.DrainOwnedProcesses | launcher/internal/launcher/owned_processes_darwin.go:355-425 | A finished drain proves every wanted scope extinct from now on. In every pass, its signal is meant for everyone tracked so far who is still there, for every member found and still live at the pass's end, and, when nothing failed, for every process of a wanted scope that lived through the pass. No signal is meant for one birth twice, no kill for a birth that no freeze hit. It refuses only if something failed or happened, and reports a remainder only after all its passes and if there was somebody. |
| Drain.WhoeverOutlivesTheDrainWasKilled | launcher/internal/launcher/owned_processes_darwin.go:375-407 | When nothing failed, whoever was born before the drain, belongs to a wanted scope and outlives it was asked to terminate, and past the deadline was frozen and killed. |
| Ownership.Seeds | launcher/internal/launcher/owned_processes_darwin.go:225-254 | The marked processes and the live recorded ones, and no others, are the seeds. |
| Ownership.Pass | launcher/internal/launcher/owned_processes_darwin.go:257-265 | One pass over the table in any order adds only children of owned processes, and reports no change only at a fixpoint. |
| Ownership.DiscoverOwned | launcher/internal/launcher/owned_processes_darwin.go:222-265 | The changed-flag loop ends with exactly the processes that a line of live parent links connects to a seed. |
| Ownership.OwnedIsLeastClosed | launcher/internal/launcher/owned_processes_darwin.go:255-265 | That set is the least one that holds the seeds and is closed under children. |
| Ownership.ClosedSetsHoldEveryLine | launcher/internal/launcher/owned_processes_darwin.go:255-265 | Any closed set with the seeds holds every line of descent. |
| RuleNumbers.DiscoveryRuleBase | apps/extension/src/discovery-executor.ts:426-433 | The loop computes the 32-bit hash of the text, folded to an even base. |
| RuleNumbers.PairsAreEqualOrDisjoint | apps/extension/src/discovery-executor.ts:426-433 | The rule pairs of any two tasks are equal or disjoint, and every number fits in 31 bits. |
| RuleNumbers.CommonTail | apps/extension/src/discovery-executor.ts:428-431 | Texts with one hash keep one hash when both go on in the same way. |
| RuleNumbers.TwoTasksShareAPair | apps/extension/src/discovery-executor.ts:426-433 | Two different tasks with one rule pair: tasks "a" and "b" under leases that begin differently and go on in one way, whatever that way is. |
| Executor.StepKeepsInv | apps/extension/src/discovery-executor.ts:75-202 | Every answer, settled promise, abort, resumption and outside act keeps the task invariant. |
| Executor.NothingLeaks | apps/extension/src/discovery-executor.ts:75-202 | In every interleaving, once the task is over and every browser call it made has settled, its tab is still open only if Chrome refused to close it, and a rule of it is left only if Chrome refused to remove its rules. |
| Executor.GuardBeforeNavigation | apps/extension/src/discovery-executor.ts:128-164 | In every interleaving, whenever the task's tab is open and has left about:blank, its allow and its block rule are both installed, cleanup included, unless Chrome has refused to close that tab. |
| Executor.NeverStuck | apps/extension/src/discovery-executor.ts:471-489 | Until every call has settled, something other than an abort or an outsider can happen next. |
| Executor.OtherTasksKeepClear | apps/extension/src/discovery-executor.ts:394-433 | With a different rule pair, no step of another task touches this task's tab or rules. |
| Executor.SharedPairIsNotClear | apps/extension/src/discovery-executor.ts:88-95 | With the same pair, the other task's cleanup removes the rules this task stands behind. |
| Executor.ClearExactlyWhenBasesDiffer | apps/extension/src/discovery-executor.ts:394-433 | Tasks can never disturb one another's tab or rules if and only if their rule bases differ. |
| Executor.RefusedCloseUnguards | apps/extension/src/discovery-executor.ts:81-87 | A run from the start of a task in which Chrome refuses the close, the executor ignores it and removes the rules, and the tab is left open and navigated without its guard. |
| Executor.RefusedCloseWouldUnguard | apps/extension/src/discovery-executor.ts:199-200 | From every state in which the final close is asked for an open, navigated tab, a refusal followed by the cleanup that comes next leaves it open and unguarded. |
| PromiseChain.NextKeepsInv | apps/extension/src/queue.ts:40-49 | Calling, starting, finishing and forgetting keep the order of the chain, rejections included. |
| PromiseChain.ChainsAreLocks | apps/extension/src/queue.ts:37-49 | When a call runs or has run, every earlier call is done: at most one runs, in call order. |
| PromiseChain.ChainsProgress | apps/extension/src/queue.ts:40-49 | No call is stranded: while it is unfinished, it or an earlier one can start or finish. |
| CaptureStore.SortedIsAPermutation | apps/extension/src/queue.ts:63 | Reading gives exactly the stored items, in order of time. |
| CaptureStore.SortedIsStable | apps/extension/src/queue.ts:63 | Items of equal time are read in the order in which they are stored. |
| CaptureStore.OperationsMeanWhatTheySay | apps/extension/src/queue.ts:81-188 | On a readable queue each operation changes exactly the one item it names, replies truthfully, and keeps ids unique; a full queue refuses. |
| CaptureStore.UnreadableIsKept | apps/extension/src/queue.ts:58-62 | An unreadable value makes every operation but clear fail and is kept as it is. |
| CaptureStore.FindIndex | apps/extension/src/queue.ts:123 | The first matching index, or the length. |
| CaptureStore.CaptureStorage.ReadQueue | apps/extension/src/queue.ts:51-64 | The stored list in time order, or a failure exactly when the value is no list of items with distinct ids. |
| CaptureStore.CaptureStorage.EnqueueItem | apps/extension/src/queue.ts:81-89 | Does to the stored value what the specified enqueue does. |
| CaptureStore.CaptureStorage.PrepareItem | apps/extension/src/queue.ts:121-133 | Finds the item by id and gives it a capture id exactly if it has none. |
| CaptureStore.CaptureStorage.MarkSuperseded | apps/extension/src/queue.ts:144-151 | Marks the item with this id and this capture id. |
| CaptureStore.CaptureStorage.RemoveItem | apps/extension/src/queue.ts:162-170 | Removes the item with this id and this capture id. |
| CaptureStore.CaptureStorage.DiscardItem | apps/extension/src/queue.ts:180-189 | Removes the item with this id, whatever its capture id. |
| CaptureStore.CaptureStorage.ClearQueue | apps/extension/src/queue.ts:176-178 | Removes the stored value, readable or not. |
| AtomicQueue.OpsConserve | apps/extension/src/queue.ts:112-189 | No operation loses an item that is not acknowledged, discarded or cleared. |
| AtomicQueue.OpsKeepIdentity | apps/extension/src/queue.ts:126-132 | An item keeps the capture id it was ever sent with. |
| AtomicQueue.PreparedIsSendable | apps/extension/src/queue.ts:121-133 | What a flush is about to send is what is stored under that id, and is not marked. |
| AtomicQueue.QueueIsConserved | apps/extension/src/queue.ts:70-189 | In every run with worker death anywhere, each item ever stored is stored, or acknowledged under the only capture id it was ever sent with, or was discarded or cleared. |
| AtomicQueue.SupersededIsNeverSentAgain | apps/extension/src/queue.ts:135-154 | An item once marked superseded is never sent again, in this life of the worker or a later one. |
| AtomicQueue.FlushRemovesOnlyItsSnapshot | apps/extension/src/queue.ts:117-170 | A flush's own operations never take out an item that is not in its snapshot. |
| AtomicQueue.EnqueuedDuringFlushIsNotInSnapshot | apps/extension/src/queue.ts:117 | In the atomic queue, an item enqueued once a flush has looked at its load is not in that flush's snapshot at any later moment. |
| FlushOutcome.EndsWithAReport | apps/extension/src/queue.ts:117-173 | A flush of the atomic queue rejects exactly if an operation failed; otherwise its report is true: the acknowledgements are exactly the sends the server took, in snapshot order, and none of them is stored; the failure is set exactly if an item was found or left marked or a delivery failed; unless a delivery failed every item of the snapshot was answered, marked or gone. |
| FlushOutcome.FlushKeepsTally | apps/extension/src/queue.ts:112-173 | At every moment of a flush its acknowledgements, its failure and its place in the snapshot agree with what the server and the storage have told it since it began; a failed delivery ends the sending. |
| FlushOutcome.GoneStaysGone | apps/extension/src/queue.ts:162-170 | An id that has left the storage never comes back. |
| FlushOutcome.MarksAreJustified | apps/extension/src/queue.ts:139-153 | In every run an item is marked superseded, in the log or in the storage, only if the server answered so for it or it was marked at the start, and exactly what the server took counts as acknowledged. |
| QueueRefinement.WritesAreAtomic | apps/extension/src/queue.ts:81-89 | What an operation writes is computed from what it read earlier, and under the lock that still is the stored value. |
| QueueRefinement.EveryStepRefines | apps/extension/src/queue.ts:37-110 | Each step of the real queue, with two promise chains and separate reads and writes, is one step or none of the atomic queue. |
| QueueRefinement.RunsRefine | apps/extension/src/queue.ts:37-110 | Behind every run of the real queue there is a run of the atomic queue through the same stored values and logs. |
| QueueRefinement.NothingIsLost | apps/extension/src/queue.ts:70-189 | Conservation and one identity, for the queue as it really runs. |
| QueueRefinement.SupersededStaysHome | apps/extension/src/queue.ts:135-154 | No sending after superseding, for the queue as it really runs. |
| QueueRefinement.OneAtATime | apps/extension/src/queue.ts:37-110 | At most one storage operation and at most one flush run at a time. |
| QueueRefinement.AskedFlushIsOwn | apps/extension/src/queue.ts:97-109 | Whoever asks for a flush gets one with its own credentials: the latest if that has them and is not over, otherwise a new one behind it. |
| FlushIsolation.LoadStaysAhead | apps/extension/src/queue.ts:40-49 | A flush's load was queued before the enqueue and, first in first out, is served before it. |
| FlushIsolation.LoadArrives | apps/extension/src/queue.ts:112-117 | What that load reads does not hold an item whose enqueue is still waiting behind it. |
| FlushIsolation.EnqueuedDuringAFlushIsApart | apps/extension/src/queue.ts:101-117 | In every run of the real queue, from the moment an enqueue is asked for while a flush runs, loaded or not, until that flush ends, the flush neither has the item in hand nor sends it. |
| FlushIsolation.EnqueuedDuringAFlushIsNeverRemovedByIt | apps/extension/src/queue.ts:112-170 | Such an item, once its enqueue has finished, is stored at every later moment until the flush ends, unless a discard or a clear took it out. |
| FlushIsolation.FinishedEnqueueStores | apps/extension/src/queue.ts:81-89 | An enqueue that finishes unrefused has stored its item; a refused one changes nothing. |
| FlushReport.FlushEndsTruthfully | apps/extension/src/queue.ts:112-173 | The same report for every flush of the real queue that resolves, over every interleaving; it rejects exactly if one of its operations failed; and its snapshot is what was stored, in order of time, at one moment since it started. |
| FlushReport.RealTally | apps/extension/src/queue.ts:112-173 | At every moment of a flush of the real queue its books agree with what it was told since it started. |
| FlushReport.SnapshotWasStored | apps/extension/src/queue.ts:117 | What a flush works on was the stored queue at one moment since it started. |
| FlushReport.OnlyTheServerMarks | apps/extension/src/queue.ts:139-153 | In the real queue only the server's own answer marks an item superseded, and only its acceptance acknowledges one. |
| ChannelPolicy.ValidateMetadata | launcher/internal/release/store.go:104-148 | Accepts exactly the metadata that is well formed, not below the recorded maximum or floor, bound to no other build or descriptor and not revoked, and returns the merged record. |
| ChannelPolicy.CommitsOnlyExtend | launcher/internal/release/store.go:62-73 | No sequence of commits lowers a floor, un-revokes a build or rebinds a sequence number. |
| ChannelPolicy.RefusalIsFinal | launcher/internal/release/store.go:180-196 | A receipt once refused is refused after any further commits. |
| ChannelPolicy.CommitRefusesExactly | launcher/internal/release/store.go:129-148 | After a commit exactly those receipts are refused that were refused before, or that it revokes, that lie below its floor or that conflict with it under its sequence number. |
| ChannelPolicy.CommitsTakeEffect | launcher/internal/release/store.go:104-148 | What a commit turned away stays refused through any later commits, and no metadata older than it is accepted again. |
| ChannelPolicy.CommittingAgainChangesNothing | launcher/internal/release/store.go:104-148 | Committed metadata validates again and merges to the same record, so an interrupted promotion can repeat it. |
| ChannelPolicy.OwnReleaseIsPermitted | launcher/internal/release/store.go:172-196 | A commit permits the release it names. |
| ChannelPolicy.SequencesAreNeverReused | launcher/internal/release/store.go:119-126 | Two accepted commits with one sequence number name the same build and descriptor, whatever was committed in between. |
| Transitions.DriftKeeps | launcher/internal/launcher/lifecycle.go:119-122 | A running release may write at any moment without breaking the fence, the labels or the journal invariant. |
| Transitions.FirstMilestoneIsForward | launcher/internal/launcher/forward_upgrade.go:123-132 | The guards of a fresh update make the first durable milestone a journal that every later guard accepts. |
| Transitions.MilestoneKeepsForward | launcher/internal/launcher/forward_upgrade.go:150-176 | Every later milestone stays acceptable to resume and to stop. |
| Transitions.HandoffKeepsForward | launcher/internal/launcher/lifecycle.go:371-431 | Replacing the public selector keeps the journal acceptable: either selector passes. |
| Transitions.ForwardSnapshotIsHonest | launcher/internal/launcher/forward_upgrade.go:115-143 | The label rule is honest for a stopped pair: one labelled with the predecessor holds nothing newer than the predecessor. |
| Transitions.BackupKeepsForward | launcher/internal/launcher/forward_upgrade.go:144-152 | Recording the first or a later snapshot keeps the journal acceptable and the labels honest. |
| Transitions.CommitKeepsForward | launcher/internal/launcher/forward_upgrade.go:171-176 | Committing the candidate's policy keeps the update resumable even if it revokes the predecessor. |
| Transitions.SelectKeeps | launcher/internal/launcher/forward_upgrade.go:180-185 | After the selection is written the journal is recognized as complete but for its last milestone. |
| Transitions.ForwardIsWhole | launcher/internal/launcher/launcher.go:674-712 | While a forward update is recorded the live pair is whole, and at the candidate's milestone its startup is authorized. |
| Transitions.UndoingKeeps | launcher/internal/launcher/lifecycle.go:823-858 | Every milestone of a rollback keeps the invariant. |
| Transitions.OwnSnapshotKeeps | launcher/internal/launcher/lifecycle.go:847-852 | A snapshot of the selected release's pair, taken while nothing runs, is labelled honestly. |
| Transitions.SelectingBackKeeps | launcher/internal/launcher/lifecycle.go:883-885 | Selecting the rollback target keeps the invariant. |
| Transitions.FreshHome | launcher/internal/release/store.go:399-421 | A newly installed home meets the invariant. |
| Transitions.TornIsBarred | launcher/internal/launcher/launcher.go:348-357 | A half-replaced pair is always behind a journal that no command passes, with nothing running, and nobody who was ever given a journal's id is authorized to start on it. |
| Transitions.RecoverableExactlyBeforeTheBackup | launcher/internal/launcher/lifecycle.go:123-142 | An unfinished rollback is not barred exactly at its first two milestones, before it saves the live pair. |
| Transitions.RecoveryCutShortIsNeverRetried | launcher/internal/launcher/lifecycle.go:132-141 | A recovery cut off right after its first write is refused ever after, although both databases are untouched. |
| Transitions.OlderPairsHoldNoCandidateWrites | launcher/internal/launcher/lifecycle.go:896-916 | In every reachable state a retained pair labelled with an older release holds no write of the candidate or anything newer. |
| Lifecycle.OwnRollbackIsRecoverableExactlyEarly | launcher/internal/launcher/lifecycle.go:123-142 | With evidence and permission for the releases it names and a known selector, an unfinished rollback of this controller meets every condition of recovery if and only if it is at its first two milestones. |
| Lifecycle.AuthorizedStartKeeps | launcher/internal/launcher/launcher.go:674-712 | A start under a journal's authority by someone who was given its id never meets a half-replaced pair and keeps the fence, the invariant and any update under way. |
| Lifecycle.Home.Admit | launcher/internal/launcher/forward_upgrade.go:56-115 | The checks admit a fresh update, a continued one, a completed one and one that is in place already in exactly the states described, and nothing else. |
| Lifecycle.Home.BackUp | launcher/internal/launcher/forward_upgrade.go:134-152 | Snapshot and milestone; cut off anywhere, the journal is still a resumable forward journal of the same plan. |
| Lifecycle.Home.HandOff | launcher/internal/launcher/forward_upgrade.go:153-164 | From the recorded backup to the candidate's milestone with the candidate's selector in place; resumable at every cut. |
| Lifecycle.Home.Finalize | launcher/internal/launcher/forward_upgrade.go:168-176 | The candidate's policy is committed between its two milestones, never before the first. |
| Lifecycle.Home.Conclude | launcher/internal/launcher/forward_upgrade.go:168-191 | From a healthy candidate to the promoted journal in five writes; at every cut the policy changes only behind its milestone and the selection only behind the next. |
| Lifecycle.Home.Finish | launcher/internal/launcher/forward_upgrade.go:165-191 | From startup to the promoted journal; at every cut the update is under way or completed. |
| Lifecycle.Home.Open | launcher/internal/launcher/forward_upgrade.go:123-133 | Begin leaves a journal that is not resumable; the first milestone is one that is. |
| Lifecycle.Home.Carry | launcher/internal/launcher/forward_upgrade.go:134-191 | From any milestone with the source still selected, twelve undisturbed writes complete the update; the live pair only gets the candidate's writes, and only behind a retained copy. |
| Lifecycle.Home.Close | launcher/internal/launcher/forward_upgrade.go:69-80 | An update whose selection was written needs one more write. |
| Lifecycle.Home.StopAndCarry | launcher/internal/launcher/forward_upgrade.go:116-191 | Past the checks nothing but a refused stop or a cut prevents the candidate from being active at one generation more. |
| Lifecycle.Home.CarryOn | launcher/internal/launcher/forward_upgrade.go:134-191 | A continued update that finishes has the candidate selected and running, its policy committed and one more pair retained. |
| Lifecycle.Home.OpenAndCarry | launcher/internal/launcher/forward_upgrade.go:123-191 | A fresh update that finishes has also retained the pair it started from under the predecessor; cut off before its first milestone it changed neither selection nor selector. |
| Lifecycle.Home.Update | launcher/internal/launcher/forward_upgrade.go:16-197 | From any state with a fenced pair: an update that is not admissible changes nothing; safe at every cut, with no effect before the milestone that announces it and the live pair unchanged or a copy of it retained; an update under way stays under way or completes at its own generation; a barred journal is untouched; a finished fresh update has the candidate selected and running with its policy committed and the predecessor pair retained; and with enough undisturbed writes it does finish. |
| Lifecycle.Home.Resume | launcher/internal/launcher/forward_upgrade.go:243-264 | Continues whatever forward update is unfinished and, undisturbed, completes it from any milestone; without a well-formed one of a permitted candidate nothing changes. |
| Lifecycle.Home.Stop | launcher/internal/launcher/forward_upgrade.go:268-335 | Changes nothing durable; refuses and changes nothing when its guards fail; under the invariant its selection and selector guards pass at every cut of an update. |
| Lifecycle.Home.Launch | launcher/internal/launcher/lifecycle.go:1114-1152 | Only an authenticated, permitted release named by the journal's current milestone is started. |
| Lifecycle.Home.LatestPair | launcher/internal/launcher/lifecycle.go:896-916 | A retained pair with exactly this label that none with the label was created after, or none exists. |
| Lifecycle.Home.RollBackTo | launcher/internal/launcher/lifecycle.go:743-894 | A rollback that must not begin (an unfinished transition, a target or selected release that is unknown or not permitted, no retained pair) changes nothing; a completed one runs the target on the newest pair retained for it, keeps the selector, and has saved the displaced pair under the old receipt; safe at every cut, the live pair unchanged or a copy of it retained. |
| Lifecycle.Home.Prepare | launcher/internal/launcher/lifecycle.go:823-858 | Up to the recorded backup the live pair is only copied. |
| Lifecycle.Home.Replace | launcher/internal/launcher/lifecycle.go:862-873 | The pair is replaced behind a fencing journal; afterwards it holds exactly the retained contents and the target's milestone is recorded. |
| Lifecycle.Home.WakeTarget | launcher/internal/launcher/lifecycle.go:877-879 | The target is started on the restored pair, which gets nothing but its writes. |
| Lifecycle.Home.SelectBack | launcher/internal/launcher/lifecycle.go:880-891 | Selects the target at the next generation and closes the journal. |
| Lifecycle.Home.Judge | launcher/internal/launcher/lifecycle.go:947-999 | Recovery goes on only with authenticated releases, a permitted predecessor, a matching backup, and a milestone at which nothing newer can have run, and with all that it does; only for a predecessor that is not permitted is the journal closed. |
| Lifecycle.Home.StopAndBringBack | launcher/internal/launcher/lifecycle.go:1020-1085 | Past the checks of recovery: stop, restore, reinstate; with no backup recorded the pair only gets the predecessor's own writes. |
| Lifecycle.Home.Recover | launcher/internal/launcher/lifecycle.go:921-1085 | A finished recovery has the predecessor selected and running on a whole pair and the journal closed, on the recorded backup's contents if there is one and otherwise on the live pair with only the predecessor's writes; one that fails its checks changes nothing, or only closes the journal of a predecessor that is no longer permitted; a barred journal is untouched. |
| Lifecycle.Home.IdentifySelector | launcher/internal/launcher/lifecycle.go:1052-1067 | Names the build whose launcher the selector really is, among the three it may be, or none is. |
| Lifecycle.Home.RestorePair | launcher/internal/launcher/lifecycle.go:1418-1498 | The restore changes nothing but the pair, two renames apart and fenced between them, and afterwards the pair holds exactly the retained contents. |
| Lifecycle.Home.RollBack | launcher/internal/launcher/lifecycle.go:708-738 | Recovers an unfinished transition or rolls back on request, leaves forward updates alone, and changes nothing when the rollback asked for must not begin. |
| Lifecycle.Home.Snapshot | launcher/internal/launcher/lifecycle.go:1233-1236 | One labelled copy of the live pair, among the retained ones or elsewhere. |
| Lifecycle.Home.Backup | launcher/internal/launcher/lifecycle.go:1154-1257 | Refuses during a transition or for a selected release that is not permitted; otherwise writes one honestly labelled copy of the stopped pair, among the retained ones or in the directory given, and restores the running state. |
| Lifecycle.Home.StartSelected | launcher/internal/launcher/lifecycle.go:1259-1274 | Starts the selected, authenticated and permitted release and only outside transitions. |
| Lifecycle.Home.StartFromEnvironment | launcher/internal/launcher/launcher.go:674-712 | A start that only its environment authorizes succeeds exactly if the unfinished journal's id was given out and its milestone names the authenticated, permitted release, and then starts it on a whole pair; otherwise nothing changes. |
| Lifecycle.Home.Obey | launcher/internal/launcher/launcher.go:297-396 | Any single command, cut off anywhere, keeps the fence and the invariant and neither loses an update under way nor touches a barred journal. |
| Lifecycle.Home.Serve | launcher/internal/launcher/launcher.go:297-396 | Any commands in any order, each cut off after any number of writes: no release is ever started on a half-replaced pair, no snapshot is ever taken of one or of a pair that a running release may be writing, labels stay honest, and a barred journal is never changed. |
| Lifecycle.Home.Persist | launcher/internal/launcher/forward_upgrade.go:243-264 | From any milestone of a cut-off update and after anything at all, the update completes at exactly its source generation plus one, with its policy committed. |
| Lifecycle.Home.UpdateThroughCrashes | launcher/internal/launcher/forward_upgrade.go:16-197 | A fresh update cut off after any number of writes either never reached its first milestone, with selection and selector unchanged, or completes one generation on. |
| Paths.JoinOfSplit | launcher/internal/launcher/launcher.go:937-943 | Splitting at slashes loses nothing. |
| Paths.CleanIsIdempotent | launcher/internal/launcher/launcher.go:941-942 | A cleaned path is its own cleaning. |
| Paths.CleanKeepsLocation | launcher/internal/launcher/launcher.go:1469-1472 | From every directory the cleaned path leads where the path leads, or nowhere when it leads nowhere. |
| Paths.TestEqualsWalk | launcher/internal/launcher/launcher.go:1469-1472 | The text test on a cleaned path holds exactly when the step-by-step walk from the root never goes above it and does not end at it. |
| Paths.DirectoryPartSplits | launcher/internal/launcher/launcher.go:1469 | The directory of a link is all its components but the last. |
| Paths.EscapeTestEqualsWalk | launcher/internal/installer/installer.go:1589-1598 | A link target passes the escape test exactly when walking through the link's directory and then along the target stays strictly inside the root. |
| Paths.AcceptedLinksPointAtSafePaths | launcher/internal/installer/installer.go:1578-1598 | The resolved text of an accepted link is a list of plain names, the very place the walk ends at. |
| Paths.SafePathsArePlainNames | launcher/internal/launcher/launcher.go:937-943 | A path is safe exactly when it is a nonempty list of plain printable names without backslashes. |
| Paths.SafePathsNameOnePlace | launcher/internal/launcher/launcher.go:937-943 | A safe path is its own location below the root, and different safe paths name different places. |
| Paths.ZipPathsAreSafePaths | launcher/internal/installer/installer.go:1578-1588 | An archive name is accepted exactly when it is a safe path with at most one trailing slash, which alone decides that it is a directory. |
| Manifest.CanonicalIsUnambiguous | launcher/internal/launcher/launcher.go:1201-1220 | For validated lists, equal canonical text means equal lists: paths, kinds, digests or targets, sizes and modes. |
| Manifest.BodyIsInjective | launcher/internal/launcher/launcher.go:1209-1213 | One line of the text stands for one file. |
| Manifest.DecimalIsInjective | launcher/internal/launcher/launcher.go:1210-1212 | Decimal sizes are unambiguous. |
| Manifest.CommonPathMeansOverlap | launcher/internal/launcher/launcher.go:1042-1044 | If two roots own one path, one of the roots owns the other. |
| Manifest.RootsApartExactly | launcher/internal/launcher/launcher.go:1105-1111 | The overlap check passes exactly when no path at all has two owners. |
| Manifest.CheckRoots | launcher/internal/launcher/launcher.go:1105-1111 | The double loop decides whether any root owns another. |
| Manifest.FindOwner | launcher/internal/launcher/launcher.go:1187-1198 | The scan finds the only owner or none; the branch for a second owner is unreachable. |
| Manifest.CheckFile | launcher/internal/launcher/launcher.go:1160-1198 | A file is refused exactly when it is invalid, out of order, repeated or without an owner. |
| Manifest.Distribute | launcher/internal/launcher/launcher.go:1158-1200 | All files pass, and each component is handed exactly the files below its root, in order. |
| Manifest.Summarize | launcher/internal/launcher/launcher.go:1205-1215 | The loop builds the canonical text and the size as 64-bit addition leaves it. |
| Manifest.CheckSummaries | launcher/internal/launcher/launcher.go:1201-1220 | Every component owns a file and matches the digest and size of what it owns. |
| Manifest.CheckSummary | launcher/internal/launcher/launcher.go:1201-1220 | One component's record matches the text and size of the files it owns, of which there are some. |
| Manifest.Validate | launcher/internal/launcher/launcher.go:1151-1220 | With the overlap check of lines 1105-1111 before it, accepts exactly the manifests described without any clause about second owners. |
| Manifest.AcceptedFilesHaveOneOwner | launcher/internal/launcher/launcher.go:1187-1200 | Every file of an accepted manifest has exactly one owner. |
| Manifest.DigestCoversWhatIsOwned | launcher/internal/launcher/launcher.go:1201-1218 | An accepted component's digest is the digest of the canonical text of exactly the files that it alone owns. |
| Manifest.RecordsPinTheFiles | launcher/internal/launcher/launcher.go:1158-1220 | Two file lists accepted under one set of component records are the same list, or they show two different texts of one component with one digest. |
| Manifest.OrderedListsAreOne | launcher/internal/launcher/launcher.go:1171-1174 | Lists in strict path order with the same files are the same list. |
| Manifest.OwnedSizesCoverAll | launcher/internal/launcher/launcher.go:1187-1220 | What the components own adds up to all file sizes: nothing twice, nothing lost. |
| Manifest.AcceptedManifestsAddUp | launcher/internal/launcher/launcher.go:1206-1219 | Claimed component sizes add up to the file sizes modulo a 64-bit word, and exactly if and only if no component's files wrap. |
| Manifest.WrappedSizesAreAccepted | launcher/internal/launcher/launcher.go:1206-1219 | Three files of one word in total are accepted as a component of size zero. |
| Download.FinishedIsVerifiedAndKept | launcher/internal/installer/installer.go:797-945 | Whatever the server does, a finished archive has the signed size and digest and is never replaced. |
| Download.HonestAttempt | launcher/internal/installer/installer.go:797-945 | From a server of one archive the partial file stays a prefix of it and a finished file is that archive, however the attempt is cut. |
| Download.LastAttempt | launcher/internal/installer/installer.go:815-882 | An attempt that is not cut finishes the archive, by a range or from the start. |
| Download.StuckExactly | launcher/internal/installer/installer.go:820-832 | A partial of at least full size that does not verify is never got past, and any other partial is finished by one full answer. |
| Download.OnlyBoundAnswersAreWritten | launcher/internal/installer/installer.go:844-908 | An answer changes the staging directory only if its status, length and range promise exactly the bytes asked for of an archive of the signed size; a partial answer keeps the old bytes in front, a full one starts over. |
| Download.OneWrongAnswerSticks | launcher/internal/installer/installer.go:820-842 | From an empty cache, one full answer with wrong bytes of the signed size leaves such a partial, and no later attempts, honest or not, change the cache again. |
| Download.ResumedEqualsFresh | launcher/internal/installer/installer.go:797-985 | Any interrupted attempts followed by one that is not cut give what a fresh download gives. |
| Download.AlwaysAPrefix | launcher/internal/installer/installer.go:797-945 | After any attempts against one archive the partial is a prefix of it and never stuck. |
| Download.Stage.Attempt | launcher/internal/installer/installer.go:797-883 | The acquisition changes the staging directory as specified and returns only a verified archive. |
| Download.Stage.Request | launcher/internal/installer/installer.go:839-883 | Asking, checking the head, writing the body and finalizing change the staging directory as specified. |
| Download.Stage.Receive | launcher/internal/installer/installer.go:910-945 | Truncates or appends, writes at most one byte more than is missing, and is complete exactly when the body was exactly what was missing. |
| Download.Stage.Finalize | launcher/internal/installer/installer.go:947-985 | Only a verified partial gets the final name, which is linked before the partial is removed. |
| Truncate.OneMoreUnit | apps/extension/src/content-script.ts:782-785 | One more code unit adds one byte to a completed pair and its own size otherwise. |
| Truncate.PrefixesGrow | apps/extension/src/content-script.ts:787-794 | The byte length of prefixes is strictly increasing, which the bisection rests on. |
| Truncate.EncodedIsTheLength | apps/extension/src/content-script.ts:782-784 | The counted length is the number of bytes of the UTF-8 encoding, lone halves replaced. |
| Truncate.EncodingIsFaithful | apps/extension/src/content-script.ts:783 | Decoding the bytes gives a well-formed text back. |
| Truncate.CutsArePrefixes | apps/extension/src/content-script.ts:795 | Cut between pairs, a text's bytes are a prefix of the whole text's bytes. |
| Truncate.TruncateUtf8 | apps/extension/src/content-script.ts:782-797 | The result is a prefix that splits no pair, and its bytes are at most the limit and a prefix of the whole text's bytes; it is the longest such prefix if and only if the last fitting unit is not a lone high surrogate, so always for well-formed text. |
| Truncate.LoneHighIsDropped | apps/extension/src/content-script.ts:796 | A concrete ill-formed text for which a longer prefix would fit. |
| Retention.SweepTracks | apps/demo-edge/src/database.ts:286-294 | The margin keeps a sweep from deleting a rate row of a window that can still be charged. |
| Retention.UpsertTracks | apps/demo-edge/src/database.ts:63-79 | The conditional upsert never counts past the limit and counts what it allows. |
| Retention.LimitsHold | apps/demo-edge/src/database.ts:63-168 | However sweeps and the separate session and global statements interleave, and however late statements run up to a fixed slack, no endpoint, session or global window allows more requests than its limit. |
| Retention.LaterThanSlackExceedsTheLimit | apps/demo-edge/src/database.ts:46-79 | The slack is exact: with a statement one millisecond later than it, an endpoint's window allows one request more than its limit. |
| Retention.RefusedOnlyAtTheLimit | apps/demo-edge/src/database.ts:63-168 | Within that slack a charge is refused only when its window has allowed exactly the limit, or because the session's identity is not active. |
| Retention.RunsStayFresh | apps/demo-edge/src/database.ts:46-53 | Every row expires after the last sweep and at its age less the margin. |
| Retention.NothingOutlivesItsAge | apps/demo-edge/src/database.ts:286-305 | With sweeps at most two hours apart no event or day's count reaches ninety days and no digest or last-written rate row a day. |
| Retention.CountedTwiceMeansSwept | apps/demo-edge/src/database.ts:85-120 | Two records of one operation are both counted only if a sweep between them carried a clock past the first digest's expiry, whatever the clock did. |
| Retention.CountedTwiceMeansExpired | apps/demo-edge/src/database.ts:85-120 | So with statements at most a slack late, the second comes no earlier than that expiry less the slack. |
| Retention.CountersCount | apps/demo-edge/src/database.ts:85-120 | Whatever the clock does, a day's counter for given dimensions is exactly the number of records counted for them since a sweep last forgot it, and there is no row for none. |
| Retention.DaysAreCountedExactly | apps/demo-edge/src/database.ts:85-120 | Until its expiry a day's counter is exactly the number of its counted records. |
| Retention.CountedInTime | apps/demo-edge/src/database.ts:46-61 | Within the slack, whenever a record can still be counted for a day, that day's counter is exact. |
| Retention.EventsLast | apps/demo-edge/src/database.ts:286-305 | An accepted event is there, unchanged, until a sweep past its expiry. |
| Retention.IdentitiesLast | apps/demo-edge/src/database.ts:286-305 | An identity stays active for its whole lifetime, until it is written again or a sweep comes past its end. |
| Retention.IdentitiesComeFromActivations | apps/demo-edge/src/database.ts:216-284 | Every identity goes back to an activation and lives as long as its latest write says. |
| Retention.OnlyActivatedAreServed | apps/demo-edge/src/database.ts:122-214 | No session is charged and no event stored but within the lifetime of an activated identity. |
| Retention.RefusalsChangeNothing | apps/demo-edge/src/database.ts:63-284 | A statement that is not granted changes no table. |
| Retention.Database.IsOperationalRequestAllowed | apps/demo-edge/src/database.ts:63-83 | Does the specified step and answers as specified. |
| Retention.Database.RecordOperationalCounter | apps/demo-edge/src/database.ts:85-120 | The counter changes only if the digest was new, in one transaction. |
| Retention.Database.ChargeSessionWindow | apps/demo-edge/src/database.ts:128-149 | One conditional upsert that charges the session only while its identity is active, with its answer. |
| Retention.Database.ChargeGlobalWindow | apps/demo-edge/src/database.ts:151-163 | One conditional upsert of the global window, with its answer. |
| Retention.Database.IsTelemetryRequestAllowed | apps/demo-edge/src/database.ts:122-168 | Two statements with other requests and sweeps between them: the global window is charged only after the session window allowed it, and the request is allowed only if both and then the edge limiter did. |
| Retention.Database.InsertTelemetryEvent | apps/demo-edge/src/database.ts:170-214 | An event is stored only for an active identity, with its bounded expiry. |
| Retention.Database.CleanupExpiredData | apps/demo-edge/src/database.ts:286-305 | Deletes exactly the expired rows of every table. |
| Registry.StepKeepsInv | launcher/internal/launcher/launcher.go:1900-2048 | Every step of supervisor, gate, child, stop command, death and power loss keeps the registry invariant. |
| Registry.OnlyRegisteredComponentsExecute | launcher/internal/launcher/launcher.go:2087-2168 | In every run a component's body only executes while its identity is in the durable registry. |
| Registry.LaunchesComplete | launcher/internal/launcher/launcher.go:1900-2048 | A launch that nothing disturbs ends with the component in the durable registry and executing, and changes nothing about any other. |
| Registry.FailedLaunchesClose | launcher/internal/launcher/launcher.go:1900-2048 | A launch whose publication or gate fails closes the gate and lets the supervisor launch nothing more. |
| Registry.ClosedGatesStayClosed | launcher/internal/launcher/launcher.go:2087-2093 | A gate closed unopened never lets its component execute, whoever starts next. |
| Registry.StopCanAlwaysBeRetried | launcher/internal/launcher/launcher.go:2711-2725 | At every moment of every run the receipt test passes, and an interrupted stop of an empty instance completes. |
| Registry.ReceiptsOutliveTheirRegistry | launcher/internal/launcher/launcher.go:2727-2759 | A receipt disappears only when the stopped proof of its registry is durable and nothing runs, or when it was never a supervisor's. |

## Left out

- Census.DiscoverScopedProcesses: covers scopes other than the caller's own; the caller's own scope with its allowed transports and waiting parent is not modelled.
- Census.ScopedTaskZero: takes completion records of earlier controllers as credible; their matching against receipts and boot sessions is not modelled.
- Drain.DrainOwnedProcesses: counts passes instead of wall-clock time and leaves out the first drain of command roots.
- Ownership.DiscoverOwned: leaves out the later re-inspection of owned processes whose arguments could not be read.
- Executor.NothingLeaks: a tab without an id, the page phase's inner waits and the result texts are not modelled.
- Executor.StepKeepsInv: callbacks that interleave are steps of a state machine on values; closures and promises as objects are not modelled.
- Executor.GuardBeforeNavigation: the user navigating the task's own tab is not modelled.
- QueueRefinement.RunsRefine: one storage area; the network, the API's answer bodies and schema validation are parameters.
- Lifecycle.Home.Update: one release channel, an active record that always exists, and immutable installed releases; the legacy current record, the acquisition adapters and release retention are not modelled.
- Lifecycle.Home.Stop: the stop of unsafe active releases and the process work behind it are not part of this class; the drain is modelled separately.
- Manifest.Validate: the header, platform, capability and signing sections of the manifest, which are checked before these lines, component metadata and required component ids are not modelled; SHA-256 is a parameter.
- Paths.EscapeTestEqualsWalk: lexical only; symbolic links on disk are not resolved.
- Download.Stage.Attempt: regular files only; the check that a staging name is no link is not modelled.
- Registry.StepKeepsInv: supervisor, gate shells and stop command interleave, so they are steps of a state machine on values; files and pipes as objects are not modelled.
- Registry.OnlyRegisteredComponentsExecute: registries without an execution scope, from before scopes existed, are not modelled; component signalling is not modelled.
- Retention.NothingOutlivesItsAge: active identities and consent cookies have their own lifetime and no bound is stated for them.
- Cryptography, signatures and hashing are opaque; SQLite, SQL text and database contents are reduced to rows and writer sets.
- Raw system calls, launchd, code signing and Seatbelt profiles.
- Uninstall, source migration, bridge handoff and Homebrew or curl bootstrapping.
- HTTP clients, the lease heartbeat of the discovery loop, the popup, the autofill overlay and DOM inspection.
- The web application, documentation site, release scanner and test harnesses.
