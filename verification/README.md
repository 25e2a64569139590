# AgentDock, verified models

AgentDock runs an assistant's work durably: plans, runs of child processes, tasks with their own
Git worktree, approvals, guided workflows. Its promises are about crashes, several processes at
once, and retries, and they rest on small protocols over one transactional document store. This
project models those protocols in Dafny and proves what they promise over whole runs.

Where the code updates a stored document or an object in place, the model is a class whose methods
assign its fields and whose `ensures` give the whole new state, as a function of the old one and once
more as a law: a relation between the arguments, the old state, the answer and the new state that
names the fields, statuses and limits themselves and none of the functions. The lemmas called
`...Means` and `...Exactly` prove that the functions obey the laws; where
several processes interleave, the model is a transition system in which every store mutation and
every effect on the world is one step, a crash may come between any two steps, and a run is any
sequence of enabled steps. The theorems are about all runs.

| files | contents |
|---|---|
| `PlanGraph`, `PlanModel`, `PlanLaws`, `PlanInvariants`, `PlanService` | the durable plan runner: dependency check, document mutations, their laws, what they keep, the in-place service |
| `PlanRuns`, `PlanMoves`, `PlanSafety`, `PlanOutcomes`, `PlanTermination` | several drivers of one plan under a lease: the steps and their laws, run theorems, why steps and plans end as they do, and the bound on the loop |
| `PlanLate`, `PlanHarmless` | drivers that act after losing the plan: what stays true, a run in which one does harm, and exactly which of their mutations do none |
| `RunStart`, `Ownership`, `OwnershipRuns`, `Canonical`, `Idempotency` | starting a run, who owns it over several runtimes, requests up to key order, operation records and their retention |
| `Utf8`, `TextLines`, `OutputStream`, `TextView`, `PersistedOutput`, `StoredView`, `LineFraming` | output: split, append, trim, page, tail, persist, and view what was persisted; framing of the supervisor socket |
| `Evidence`, `Task`, `Approval` | completion evidence, the Task lifecycle, one-time grants |
| `GitRefs`, `GcEligibility`, `GcRuns`, `GcAlone` | commit refs, the two eligibility procedures, collection interleaved with other users of a worktree, and an attempt that is not interfered with |
| `Workflow`, `WorkflowLaws`, `WorkflowService`, `WorkflowUnits`, `WorkflowRuns`, `WorkflowReview` | the guided-development state machine and its laws, the evidence of a review, run theorems, and when a finished workflow was reviewed |

## Assumptions

- Store mutations are atomic and serial, as the SQLite backend makes them; a refused mutation leaves
  the document as it was.
- Identifiers drawn at random are fresh, times do not go back, hashes are injective (a fingerprint is
  modelled by what is hashed, or by an arbitrary function of it).
- Guarded plan runs (`PlanRuns.IsRun`), of which the theorems of `PlanSafety` and `PlanTermination`
  speak: what a driver changes after an `await` it changes while the plan still names it as its
  driver. The code does not check this. It holds of every run in which each such change comes within
  half a lease (1.5 s) of the driver's last renewal (`PlanSafety.TimedRunIsGuarded`). Without it
  `PlanLate.OneChildPerAttempt` still holds, and `PlanHarmless` says when the rest does.
- Step idempotency keys of one plan are distinct, which the code does not check. Operation records of
  the plan are still retained. During a commit step nothing else touches the worktree.
- `cancel` and `continue` of a plan each happen in one step, as they do within one process.
- A running runtime has a live process id and is the only one to remove its lease.
- Policy, redaction and key normalisation are arbitrary functions.

## Findings

- `GcRuns.MeetingALockCanLoseACommit`: `removeWorktree` unlinks `HEAD.lock` even when it failed
  because somebody else held it. A third party can then commit between another collection's last
  check and its removal, and the commit is lost. `GcRuns.QuietCollectionLosesNothing` and
  `GcRuns.RemovalsLoseNoCommit` give the guard: no removal goes wrong whose own lock was not taken
  away, and no lock is taken away while every attempt gets the lock it asks for.
- `PlanLate.LateSettlementUndoes` and `PlanLate.LateBeginForgetsCommit`: the mutations a driver makes
  after an `await` do not look at who drives the plan now. In a reachable world one late settlement
  turns the passed step of a completed plan into a failed one and the plan into one that waits for
  repair; in another, a late start of a commit step overwrites the head it started from, and the
  commit already made is taken for absent. `PlanHarmless.HarmlessExactly` gives, for every such change
  in every world that keeps what runs keep, the exact condition under which all of that is kept.
- `WorkflowRuns.PrototypeReturns` and `WorkflowReview.BlockedPrototypeForgetsWayfinding`: the hand-off
  text says a prototype returns to the prior planning phase; it does so exactly when that phase is
  grilling or nothing was blocked in between, because a block overwrites the one return slot.
- `WorkflowReview.RelinkingSkipsTheReview`: linking tasks anew during a review drops the captured
  evidence, and a review without evidence passes unchecked: a run of four calls ends with an unfinished
  task as its only work and no review. `WorkflowReview.ReviewCheckedExactly` says when the check is made.
- `StoredView.GivenUpLooksWhole`: what the store holds of a run is marked as cut when it is. When the
  runtime is gone, whoever reads the run marks it interrupted and stores it again, and the mark is then
  computed from what was found, not from what was written. If only the front of the first chunk had
  been cut, the view of the run shows the end of its output with none of its three flags set (the page
  still marks that chunk as partial). `StoredView.ViewGivenUp` gives the exact condition, and by
  `StoredView.ViewStored` and `TextView.TextView` the flags are exact as long as nobody gives the run up.
- `LineFraming.NextLineOverflows` and `SmallChunkCanOverflow`: the 1 MiB limit is applied to the carried
  text and the chunk together, before complete lines are taken out. So a line that fits is lost with
  the connection when its newline arrives together with a further line, in a chunk of three bytes even.

## Model

| member | source | states |
|---|---|---|
| PlanGraph.ValidateDependencies | src/plan-service.js:57-78 | the depth-first check accepts exactly the graphs whose dependencies all exist, are not self-references, and contain no cycle; the first error kind is reported exactly when one is missing or a self-reference |
| PlanGraph.CycleSearch.Visit | src/plan-service.js:66-76 | a visit that succeeds finishes the node and restores the visiting set; one that fails proves that the graph has a cycle |
| PlanGraph.TopologicalOrderExcludesCycles | src/plan-service.js:57-78 | an order in which every step follows what it depends on rules out every cycle, of any length |
| PlanGraph.AcyclicHasSource | src/plan-service.js:57-78 | every non-empty set of steps of an acyclic graph has one that depends on none of the set |
| PlanInvariants.SomeStepReady | src/plan-service.js:733-752 | with validated dependencies, no step in progress and none failed, a pending step means some pending step has all its dependencies passed |
| PlanInvariants.ChangeStep | src/plan-service.js:675-683 | one permitted change of one step keeps the step invariant, undoes nothing, and uses up work |
| PlanInvariants.ContinueCallOk | src/plan-service.js:520-548 | an accepted continuation keeps the plan invariant, undoes no step, and leaves no failed step in the running plan |
| PlanInvariants.CancelPlanOk | src/plan-service.js:710-731 | honouring a cancellation ends the plan for good with nothing in progress, and undoes no finished step |
| PlanInvariants.DriveOwnedOk | src/plan-service.js:703-791 | one stretch of the driver loop keeps the invariant, hands out only a step whose dependencies passed, and never reports blocked dependencies |
| PlanInvariants.SettleRunOk | src/plan-service.js:875-978 | recording how a run ended keeps the plan invariant and uses up work; the driver returns exactly when the plan has stopped, and otherwise no step has failed |
| PlanInvariants.SettleActionOk | src/plan-service.js:675-700 | the same for the end of a commit or task-finish step |
| PlanInvariants.RecordStartOk | src/plan-service.js:816-824 | recording a started run keeps the plan invariant, undoes nothing, uses up work, and leaves the step chosen |
| PlanInvariants.BeginCommitOk | src/plan-service.js:630-638 | the same for a commit step that begins |
| PlanLaws.CancelCallMeans | src/plan-service.js:476-492 | a final plan stays, a running one notes the request, a stopped one runs again for a new driver with the request noted; no step changes |
| PlanLaws.ContinueMeans | src/plan-service.js:520-548 | not waiting, needing repair, or another step named: refused with that error and nothing else is; otherwise the named step alone moves, a barrier to passed and any other to pending, in a running plan without driver, lease or blocker |
| PlanLaws.ClaimMeans | src/plan-service.js:555-585 | a running plan is taken for 3000 ms unless another driver holds a lease that has not run out |
| PlanLaws.RenewMeans | src/plan-service.js:609-622 | only the owner of a running plan renews, to 3000 ms when no more than half of it is left |
| PlanLaws.NextStepMeans | src/plan-service.js:733-740 | what is worked on is the first running step, else the first pending one all of whose dependencies have passed; there is none exactly when no step is either |
| PlanLaws.TurnMeans | src/plan-service.js:703-791 | one turn of the loop: a requested cancellation ends the plan and its first step in progress; without work the plan is blocked, ready to commit or completed, as its steps and its task are; a barrier waits and parks the plan for the user or the assistant; a command is started or watched; a commit or finish is acted on |
| PlanLaws.SettleRunMeans | src/plan-service.js:875-978 | after a run the step is passed exactly if the run exited by itself with an exit code the step accepts, pending exactly if not and attempts are left, and otherwise cancelled, interrupted or failed as the run was, in a plan parked for repair; nothing else of the plan changes |
| PlanLaws.SettleActionMeans | src/plan-service.js:675-700 | a commit or finish that succeeded passes its step; one that did not fails it and parks the plan |
| PlanRuns.TimelyOwns | src/plan-service.js:609-622 | a driver still within half a lease of its renewal owns the plan, under a lease that has not expired, and its snapshot of its step is the stored one |
| PlanRuns.StepKeepsCore | src/plan-service.js:555-980 | every step of every driver, call, crash or tick of the clock of a guarded run keeps the plan invariant and the lease invariant, and undoes no step |
| PlanMoves.EventMeans | src/plan-service.js:555-980 | every event of a run, guarded or not, does to the stored plan what the law of its operation says, sends its driver where the law says with the copy of the step it then holds, and changes nothing else: a start reuses the run its key is recorded with or records a new one, a spawn adds one child, a commit is made when there is something to commit and otherwise taken for made exactly if the head has moved since the step began |
| PlanMoves.RunsMove | src/plan-service.js:555-980 | and in every run a driver makes, where it waits, only the steps given: a start takes a fresh run only for a key that has none, a commit step reads the head before it commits, only a success is settled as one |
| PlanSafety.LeaseExcludes | src/plan-service.js:555-622 | in every run two drivers within their time are the same driver, and it holds an unexpired lease on a running plan |
| PlanSafety.NeverDependencyBlocked | src/plan-service.js:741-752 | in every run the dependency-blocked outcome never occurs |
| PlanSafety.StepsInOrder | src/plan-service.js:733-791 | in every run at most one step is running or waiting, steps leave pending only after their dependencies passed, and a ready or completed plan has only passed steps |
| PlanSafety.NothingUndone | src/plan-service.js:703-979 | over any stretch of a guarded run no finished step changes again (so no failed step is rerun) and a final plan stays exactly as it is |
| PlanSafety.WorkBoundsChanges | src/plan-service.js:915-928 | the number of times any run changes the steps is bounded by the attempts the plan was given |
| PlanTermination.RoundsPaid | src/plan-service.js:703-979 | at every point of a run the rounds of the drivers' outer loop so far, with those still in hand, are at most two per claim of the plan and one per change of its steps |
| PlanTermination.OuterLoopBounded | src/plan-service.js:703-979 | so between claims the outer loop is bounded: in every run its rounds are at most two per claim and seven per step |
| PlanSafety.ChildrenBounded | src/plan-service.js:793-826 | distinct children of a step belong to distinct attempts, at most one more than are recorded and never more than allowed |
| PlanSafety.AtMostOnce | src/plan-service.js:793-826 | across crashes and takeovers each attempt of a step spawns at most one child, and a step at most its maximum of attempts |
| PlanSafety.CommitExactlyOnce | src/plan-service.js:624-685 | however often a commit step is crashed and driven again, once passed it made exactly one commit, on the head it started from |
| PlanOutcomes.StepsEndForAReason | src/plan-service.js:875-978 | in every guarded run a passed command carries an exit code that its step accepts, a failed or interrupted one has used all its attempts, and a passed finishing step has a finished task |
| PlanOutcomes.CompletedMeansFinished | src/plan-service.js:741-752 | a completed plan has a finished task and only passed steps |
| PlanOutcomes.BarriersPassByName | src/plan-service.js:520-548 | a barrier is passed only from waiting, and only by the call that names it |
| PlanSafety.TimedRunIsGuarded | src/plan-service.js:587-622 | every run whose drivers change the plan within half a lease of their renewal is a guarded run, so all of the above holds of it |
| PlanSafety.TimedMutationsHoldTheLease | src/plan-service.js:587-622 | and in it every such change is made by the owner, under a lease that has not expired |
| PlanLate.OneChildPerAttempt | src/plan-service.js:793-826 | however late and however many the drivers are, with no guard at all, each attempt of a step spawns at most one child |
| PlanLate.LateSettlementUndoes | src/plan-service.js:686-697 | a guarded run, and after it one settlement by a driver that no longer owns the plan, which turns a passed step of a completed plan into a failed one |
| PlanLate.LateBeginForgetsCommit | src/plan-service.js:624-649 | a guarded run in which a commit is made and not yet recorded, and after it a late start of the step; every driver that then looks for the commit takes it for absent |
| PlanHarmless.OrderKeptExactly | src/plan-service.js:587-980 | for every world that keeps the plan and lease invariants, and every change by a driver that no longer owns the plan (a start, a run's end, a commit begun, made or settled, an approval asked for, a driver failure): these invariants are kept, no step is undone and a final plan stays, exactly under the stated condition on the stored step, the plan's status, the owner's position and the leases |
| PlanHarmless.HarmlessExactly | src/plan-service.js:587-980 | and everything that guarded runs keep, with the children and the commits of every step, is kept exactly if moreover the commits of a commit step are as the change takes them to be |
| PlanService.StoredPlan.Cancel | src/plan-service.js:476-492 | sets the flag and reopens a stopped plan for a driver; final plans stay as they are; a plan in order stays in order |
| PlanService.StoredPlan.Continue | src/plan-service.js:520-548 | passes the barrier or re-arms the approved step it is stopped at, or refuses with the error of the source and changes nothing; a plan in order stays in order, undoes nothing and has no failed step afterwards |
| PlanService.StoredPlan.EnsureDriver | src/plan-service.js:555-585 | claims a running plan exactly when no other driver holds an unexpired lease, and then takes a full lease |
| PlanService.StoredPlan.RenewDriver | src/plan-service.js:609-622 | true exactly for the owner of a running plan, who then has more than half a lease left |
| PlanService.StoredPlan.DependenciesPassed | src/plan-service.js:736-738 | the nested search decides whether every dependency has passed |
| PlanService.StoredPlan.ChooseStep | src/plan-service.js:733-740 | the running step, else the first pending one whose dependencies passed |
| PlanService.StoredPlan.CancelOccupied | src/plan-service.js:710-731 | cancels the plan and the step in progress; a plan in order stays in order with nothing in progress |
| PlanService.StoredPlan.DriveOnce | src/plan-service.js:704-792 | the loop from its head to the next suspension, as the transition that the run theorems use; a plan in order stays in order and goes forward, what is handed out is a step whose dependencies passed, and the owner returns only from a stopped plan |
| PlanService.StoredPlan.SettleRun | src/plan-service.js:875-978 | the step is Passed exactly if the run exited with one of the exit codes of the driver's snapshot, Pending exactly if not and attempts are left, and otherwise Cancelled, Interrupted or Failed as the run ended, with the plan parked for repair; by the driver whose snapshot is still the stored step, a plan in order stays in order and goes forward, and the driver returns exactly when the plan has stopped |
| RunStart.StepKeepsSafe | src/process-service.js:658-846 | every step of a start, an abort, a recovery, a crash or a task finalisation keeps every child accounted for and every key with its run |
| RunStart.ReservedExactly | src/task-service.js:160-193 | a process is reserved by a reservation of an active task only, and the reservation goes exactly when its own call gives it up, finds its key taken, or registers, or when the run is recovered |
| RunStart.RegisteredExactly | src/process-service.js:658-846 | a process is registered exactly when the task is active and has it reserved, by its own call or once its child is known to have ended or its owner to be gone |
| RunStart.ChildExactly | src/process-service.js:780-803 | a child comes alive by the spawn of its own call and only ever ends |
| RunStart.StoredExactly | src/process-service.js:804-850 | a record is stored as active by its own call, and becomes inactive exactly when that call knows its child to have ended or when the run is recovered |
| RunStart.KeyedExactly | src/idempotency-service.js:116-163 | a key goes to the first call that claims it and is given up by retention only |
| RunStart.CalledExactly | src/process-service.js:658-846 | a call begins with its reservation, goes on by its own steps to the stage given, and ends with them or with its runtime |
| RunStart.LivingKeepTheirs | src/process-service.js:259-322 | in every run what a running runtime with a lease has reserved is given up by its own call only, and its record becomes inactive only when its child has ended |
| RunStart.StagesInOrder | src/process-service.js:658-846 | in every run a call can make just the steps of its stage, and the record of a registered process is stored |
| RunStart.StoredStartIsRecovered | src/process-service.js:170-208 | a start abandoned after its record was stored may be recovered by another runtime exactly when its owner has no lease or does not run, and is then registered, as ended, with its reservation gone |
| RunStart.UnstoredStartBlocks | src/process-service.js:179-206 | a start abandoned before that keeps its reservation in every continuation of every run, and its task is never finished or cancelled |
| RunStart.NoLostChild | src/process-service.js:438-569 | in every run each child ever spawned has ended, or is registered in its task, or is covered by a reservation |
| RunStart.FinalTaskKnowsItsChildren | src/task-service.js:251-350 | once a task is finished or cancelled it stays so, no child is spawned for it, and every child still alive is registered |
| RunStart.OneChildPerKey | src/idempotency-service.js:116-163 | two children under one key are one child, unless the key's record was deleted |
| Ownership.StaleHeartbeatNeverInterrupts | src/process-service.js:151-168 | the age of a heartbeat never changes what is stored about a run |
| Ownership.RestoredMeans | src/process-service.js:279-322 | a stored run that has ended is taken as it is, an active one of a runtime with a lease and a live process as remote, stale exactly when the heartbeat is missing or too old, and any other active one as interrupted |
| Ownership.ProcessRuntime.Restore | src/process-service.js:279-322 | keeps every cached active record either local with its handle or remote, and writes the store only to give the run up |
| Ownership.ProcessRuntime.AdoptChild | src/process-service.js:804-838 | a child just spawned is cached with its handle and stored as owned by this runtime |
| Ownership.ProcessRuntime.Get | src/process-service.js:324-343 | answers from a local or ended record, and otherwise from the store |
| Ownership.ProcessRuntime.Cancel | src/process-service.js:1091-1130 | not known is not found, another task's run is a mismatch, a run held elsewhere is refused; signals exactly a running process that is not remote, which this runtime then has spawned, and stores it as cancelling; changes nothing else |
| Ownership.ProcessRuntime.ChildEnded | src/process-service.js:884-929 | a child that could not be run is stored as failed, one that was asked to stop as cancelled, and any other as exited unless it had failed before; its handle is given up |
| OwnershipRuns.StepKeepsSafe | src/process-service.js:259-350 | every read, cancellation, spawn, failed start, end, shutdown, crash, restart and lease change keeps each runtime's records and the store consistent |
| OwnershipRuns.EventMeans | src/process-service.js:259-623 | every event does to the runtime it is about just what that runtime's own call does, by the same laws, and nothing to any other; a signal is sent exactly when the call sends one |
| OwnershipRuns.SignalsOnlyOwnChildren | src/process-service.js:427-623 | over several runtimes with crashes and reused names and process ids, every signal, of a cancellation, a shutdown or a failed start, goes to a process that the signalling incarnation itself spawned |
| OwnershipRuns.OneHolder | src/process-service.js:345-349 | at most one runtime holds a run's child, the one the store names; only a run whose start failed may be missing from the store |
| OwnershipRuns.GivenUpExactlyWhen | src/process-service.js:279-343 | in every run, a stored active run becomes interrupted in an event exactly when that event is a read or cancellation of it by a runtime that does not answer from its own cache, while the stored owner is none, empty, that runtime itself, without a lease, or without a live process |
| OwnershipRuns.HeldRunsAreNotGivenUp | src/process-service.js:299-318 | so no call anywhere marks a run interrupted while a running runtime holds its child and keeps its lease, however late its heartbeat |
| Canonical.LessExactly | src/idempotency-service.js:13-23 | properties and units are put in the dictionary order by code unit |
| Canonical.CanonicalExactly | src/idempotency-service.js:13-23 | two requests have one canonical form exactly when they are the same JSON value up to the order of properties |
| Idempotency.ReusedExactlyForSameRequest | src/idempotency-service.js:53-68 | a key is accepted again exactly for the same task, tool and request |
| Idempotency.IdempotencyService.Prune | src/idempotency-service.js:209-266 | only finished operations go: all that have been over for the retention time, by their completion or else their last update, and of the others the oldest and no more than needed; it reports full exactly when unfinished operations alone reach the limit |
| Idempotency.IdempotencyService.DropUntilBelow | src/idempotency-service.js:251-255 | deletes from the front, and no more than needed |
| Idempotency.IdempotencyService.Lookup | src/idempotency-service.js:97-114 | finds the operation, none, or reports that the key was used for another request |
| Idempotency.IdempotencyService.Claim | src/idempotency-service.js:116-163 | prunes, refuses when the store is full, gives a free key to the caller's run as a new claimed operation of this time, and answers a taken one with its operation exactly when task, tool and request are the same |
| Idempotency.IdempotencyService.Mark | src/idempotency-service.js:188-207 | moves only the operation of this run, sets its completion time the first time its status is a final one, and changes nothing else |
| Idempotency.OldestDropped | src/idempotency-service.js:233-255 | deleting the oldest finished records in order, no more than needed, is what pruning promises |
| Idempotency.PrunedBelowLimit | src/idempotency-service.js:228-263 | pruning ends below the limit exactly when unfinished operations do not fill it |
| Idempotency.PruneMeans | src/idempotency-service.js:209-266 | what goes is finished; all that is overdue goes; another goes only when one more would reach the limit and no kept finished one ended before it; and no finished one stays while the limit is reached |
| Idempotency.RetentionBounded | src/idempotency-service.js:116-163 | any sequence of non-overlapping calls keeps at most the maximum of operations |
| Idempotency.UnfinishedKeyKeepsItsRun | src/idempotency-service.js:116-207 | over any sequence of claims, marks and prunings, as long as a key's operation is unfinished it stays with the run, owner and request that took it |
| Idempotency.ClaimMeanwhile | src/idempotency-service.js:131-138 | and every claim of the key meanwhile is answered with that run or refused |
| Utf8.RoundTrip | src/state-store.js:78-81 | decoding an encoded text gives it back (RFC 3629, section 3) |
| Utf8.DecodeFromCut | src/state-store.js:78-81 | decoding from any byte on gives one replacement character per byte of a split character and then the rest unharmed |
| Utf8.DecodedTail | src/state-store.js:77-81 | encoding, cutting and decoding is the text's tail, and `TailSize` counts its bytes |
| Utf8.TailSize | src/state-store.js:77-88 | the tail of `n` bytes is `n` bytes long plus two for every byte of a split character |
| OutputStream.SplitUtf8Text | src/process-service.js:22-42 | the parts spell the text, each fits the limit, and none could have taken one more character |
| OutputStream.RunOutput.Push | src/process-service.js:864-876 | one chunk at the next cursor, with contiguous cursors and exact byte counts |
| OutputStream.RunOutput.DropOldest | src/process-service.js:639-650 | drops from the front only while too much is retained, never the last chunk |
| OutputStream.RunOutput.Trim | src/process-service.js:639-656 | afterwards what is retained fits the live limit, is a suffix of everything written, and dropping one chunk less would not have fitted |
| OutputStream.RunOutput.Append | src/process-service.js:864-879 | a write becomes new chunks of its stream, of at most 16384 bytes each, that spell it, one exactly when it fits one; and the limit holds again |
| OutputStream.FillPage | src/process-service.js:1007-1015 | the longest run of leading chunks within the page limits, or the first chunk if it alone exceeds them, as a stored one may |
| OutputStream.RunOutput.Output | src/process-service.js:949-1051 | refuses pages outside 16384 to 32768 bytes, outside 1 to 128 chunks, and cursors outside the stream, in this order; otherwise the page at the effective cursor, with its flags exact |
| OutputStream.NoChunkTwice | src/process-service.js:1002-1023 | a reader that follows the next cursor while the writer appends and trims is given no chunk twice |
| OutputStream.NothingSilentlySkipped | src/process-service.js:1002-1023 | every position such a reader passes is delivered as written or flagged as lost on the page that skipped it |
| TextLines.LinesCutAtNewlines | src/process-views.js:55-62 | what lines are: the text cut exactly after each newline |
| TextLines.TailIsLastLines | src/process-views.js:55-62 | splitting, slicing and joining keeps exactly the last lines and counts the others |
| TextView.DrainPages | src/process-views.js:72-77 | reads every remaining page of a quiet stream |
| TextView.TextView | src/process-views.js:68-103 | of a live or restored run: one page as strings; or, with a tail, the last lines of each stream from the cursor on, for any limits of the first page; with all three flags exact, among them the one for dropped output, which a live run has exactly when text was lost, and the one for output missing before the cursor, which with a tail is set exactly when what is left fits the first page, and so never in a live run |
| TextView.FloorMeansLoss | src/process-service.js:639-656 | a live run has a raised floor exactly when text that was written is no longer there |
| PersistedOutput.Persist | src/state-store.js:51-107 | keeps the longest suffix of redacted chunks that fits, after the tail of the chunk before it; floor, size and truncation flag are exact |
| PersistedOutput.OneLongestFit | src/state-store.js:59-91 | that suffix is unique |
| PersistedOutput.KeptIsASuffix | src/state-store.js:59-93 | what is kept is a suffix in cursor order with at most the first chunk shortened, and everything when nothing was cut |
| PersistedOutput.KeptSize | src/state-store.js:64-88 | its size is within the limit, or exactly the limit plus two bytes per byte of a split character, six at most |
| PersistedOutput.Store | src/process-service.js:250-257 | what is stored of a run, live or restored, is what `Persist` keeps; it is marked as cut exactly when the run had dropped output or its redacted output is too long |
| PersistedOutput.Restore | src/process-service.js:279-298 | the record found in the store, readable from its floor on |
| StoredView.ViewStored | src/process-service.js:250-298 | a stored run viewed by another runtime is flagged exactly when output was dropped or cut; otherwise the view shows the end of everything |
| StoredView.ViewGivenUp | src/process-service.js:259-314 | after the run was given up the view is flagged exactly when whole chunks are missing or what was found is too long once more |
| StoredView.GivenUpLooksWhole | src/process-service.js:259-314 | so one write that was too long to store, by a runtime that died, is viewed without its beginning and without a flag |
| LineFraming.LineParser.OnData | src/run-supervisor-ipc.js:30-43 | one data event: when the carried text and the chunk exceed 1048576 bytes the connection is destroyed and nothing delivered; otherwise they are complete lines and an unfinished one, the lines that are not empty are delivered in order and the unfinished one is carried |
| LineFraming.MessagesConcat | src/run-supervisor-ipc.js:36-42 | text that arrives later continues the unfinished line and changes no earlier message |
| LineFraming.ChunkingDoesNotMatter | src/run-supervisor-ipc.js:27-44 | for every way of cutting the stream the messages delivered are its first non-empty complete lines, and all of them while the connection stands |
| LineFraming.DestroyedExactlyOnOverflow | src/run-supervisor-ipc.js:31-35 | the connection is destroyed exactly when some chunk and the line it continues exceed 1 MiB |
| LineFraming.WriteThenParse | src/run-supervisor-ipc.js:86-88 | writing non-empty newline-free messages and parsing them, in any chunks, is the identity |
| LineFraming.LineByLineStands | src/run-supervisor-ipc.js:27-44 | messages that each fit a frame, sent one chunk each, are all delivered and leave the connection standing, however many |
| LineFraming.NextLineOverflows | src/run-supervisor-ipc.js:31-35 | two lines that each fit a frame, the first carried from earlier chunks: delivered when the newline comes alone, lost with the connection when it comes with the second line |
| LineFraming.SmallChunkCanOverflow | src/run-supervisor-ipc.js:31-35 | such a stream in chunks of a kilobyte, ended by a chunk of three bytes |
| Evidence.SatisfiedExactly | src/completion-evidence.js:47-63 | a contract is met exactly when the newest record of each required kind is a PASS on the commit |
| Evidence.NormalizeContract | src/completion-evidence.js:15-34 | accepts exactly the non-empty lists of supported kinds, and stores each kind once |
| Approval.ApprovalState.Authorize | src/approval-service.js:43-152 | denied exactly if the policy denies, allowed exactly if it allows or if it asks, the task is active and a grant of the scope covers the task or this operation; a one-time grant is used up only when no task grant covers it; otherwise the open request or a new one; the ledger is unchanged for what the policy allows or denies itself |
| Approval.ApprovalState.Respond | src/approval-service.js:198-275 | the four refusals in order, and otherwise the answered request and its grant |
| Approval.GrantsAreConserved | src/approval-service.js:94-109 | in every run the requests approved for one use of an operation and scope are those used plus those present, until finalisation drops the rest |
| Approval.ResolvedOnce | src/approval-service.js:220-228 | each request is resolved at most once and yields at most one grant: those recorded as resolved and as granted are exactly the settled and the approved requests of the ledger |
| Approval.NoDuplicateOpenRequests | src/approval-service.js:111-126 | no two open requests ask the same thing under the same rule |
| Approval.AllowedForAReason | src/approval-service.js:80-109 | in every run an allowed operation is one the policy does not deny, and what it asks about is allowed only while the task is active and under an approved request of the same scope, for this operation if the grant is for one use |
| Approval.RunsMean | src/approval-service.js:43-275 | every call of a run answers and leaves the ledger as its law says; a use is entered exactly for the one-time grant that the answer used, and finalisation takes every grant away |
| Approval.RespondedMeans | src/approval-service.js:198-275 | an invalid decision, a finished task, an unknown request and a settled one are refused, in this order, and nothing else is; otherwise the request alone changes, to approved, denied or awaiting the user, and an approval appends one grant of its kind |
| Task.TaskRecord.ReserveProcessStart | src/task-service.js:160-185 | reserves once, on an active task only |
| Task.TaskRecord.ReleaseProcessStart | src/task-service.js:187-193 | removes every reservation of that run and no other, whatever the status |
| Task.TaskRecord.AddProcess | src/task-service.js:195-217 | registers a run once and consumes its reservation, or refuses |
| Task.TaskRecord.Finish | src/task-service.js:251-328 | every refusal in the order of the source, and otherwise the completed task with its grants gone |
| Task.TaskRecord.Cancel | src/task-service.js:330-350 | cancels an active task with no pending start; a second cancel changes nothing |
| Task.TaskRecord.RecordEvidence | src/task-service.js:227-245 | refused exactly for a finished or cleaned task or an unsupported kind, and then nothing changes; otherwise exactly one record is appended, with the caller's status and subject and the normalised kind |
| Task.TaskRecord.RecordCleanup | src/task-service.js:473-490 | records a cleanup of a finalised task once |
| Task.StepKeepsTask | src/task-service.js:160-350 | every operation keeps the Task invariant, only adds runs and evidence, and freezes a finalised task |
| Task.FinalisedIsQuiet | src/task-service.js:315-349 | in every history a finalised task has no pending start and no grant, and a cleaned task is finalised |
| Task.Finality | src/task-service.js:35-50 | from completion or cancellation on nothing about a task changes, except that its cleanup is recorded once |
| Task.OutcomeIsTruthful | src/task-service.js:263-303 | a commit outcome names a new commit under the canonical ref; no-change names the base commit and a reason |
| Task.CompletedMeetsItsContract | src/task-service.js:304-324 | a completed task with a contract has a PASS on its final commit as the newest record of each required kind |
| Task.CompletedWasTold | src/task-service.js:227-324 | in every history, for every required kind of a completed contracted task, an earlier accepted call recorded a PASS of that kind on the final commit, and no accepted call after it recorded that kind |
| Task.EvidenceIsTestimony | src/task-service.js:227-245 | the stored evidence is exactly what the accepted calls recorded, in order |
| Task.StepMeans | src/task-service.js:160-490 | every operation obeys its law, which names each refusal and every field that changes |
| Task.RecordsOnlyGrow | src/task-service.js:195-245 | registered runs and evidence are never forgotten, and identity, base and contract never change |
| GitRefs.Repository.RetainTaskCommit | src/git-service.js:139-151 | touches the Task's own ref only, and succeeds exactly when git takes the update and the ref still names the commit when it is verified |
| GitRefs.Repository.AssertRetainedTaskCommit | src/git-service.js:153-176 | succeeds exactly when the ref names the commit |
| GitRefs.Repository.RetainGcSafetyCommit | src/git-service.js:91-137 | succeeds exactly when the safety ref names the commit in the end, and never moves a ref that was there or was created meanwhile |
| GitRefs.RefsDoNotClash | src/git-service.js:77-89 | refs of different tasks or kinds never coincide |
| GcEligibility.PreviewOne | src/task-reconcile-service.js:70-279 | the decision for one task, in the order of its tests; a candidate exactly when it may be collected by the facts themselves, with that policy and head |
| GcEligibility.Preview | src/task-reconcile-service.js:62-301 | the report built by the loop, of which `ReportedExactly` says what it lists |
| GcEligibility.ReportedExactly | src/task-reconcile-service.js:62-301 | the preview lists every task exactly where its decision puts it: candidates, blocked with that reason, needing attention, or nowhere |
| GcEligibility.CandidateExactly | src/task-reconcile-service.js:70-279 | a task is a candidate exactly when it is finalised and not cleaned, its worktree is present and was inspected, it was finalised at least the retention time ago, it has no pending start, active run, open plan or open approval, it ended in one of the five known ways with its commit retained where there is one, and its worktree is registered, clean and on the expected commit |
| GcEligibility.BlockedExactly | src/task-reconcile-service.js:104-254 | and it is blocked for a reason exactly when that is the first thing that holds it back |
| GcEligibility.CheckMetadata | src/task-service.js:366-427 | invalid exactly when a completed task ended in none of the known ways, not retained exactly when its commit is not kept by its own ref |
| GcEligibility.Cleanup | src/task-service.js:352-491 | the guards in order, the safety ref, the lock and the record, with nothing else going on |
| GcEligibility.PreviewAgreesWithCleanup | src/task-reconcile-service.js:167-254 | in every state a task is a candidate exactly when, by the facts themselves, nothing holds it back early (past the retention time, no pending start, active run, open plan or open approval) and every guard of the cleanup passes; both then expect the same head |
| GcEligibility.GuardExactly | src/task-service.js:366-447 | the cleanup is held by an error exactly when that is the first guard the task and its worktree fail, and by none exactly when they fail none |
| GcEligibility.CandidateCleansUp | src/task-service.js:429-461 | in the same state the cleanup of a candidate fails only on a safety ref naming another commit or a held HEAD lock |
| GcEligibility.Collect | src/task-reconcile-service.js:303-387 | refuses a snapshot in which any listed field of any candidate has changed, an empty or ineligible request, and otherwise handles exactly the requested tasks, each once; every one of them may be collected by the facts themselves, so none is inside its retention window |
| GcEligibility.ProposedIsCollected | src/task-reconcile-service.js:316-357 | whatever a fresh preview proposes is collected, but for those two refusals |
| GcRuns.SafetyRefNeverMoves | src/git-service.js:91-137 | in every run, with several attempts at once, a safety ref once created is never moved |
| GcRuns.RemovalsLoseNoCommit | src/git-service.js:309-359 | a worktree is removed only when clean and with its expected commit kept by a ref; its HEAD is that commit unless the remover's lock was taken away |
| GcRuns.RobbedExactly | src/git-service.js:316-368 | in every run an attempt has lost its lock exactly when the lock was its own in some event that was the unlink or the removal of another attempt, or an outside commit or abort that took the lock for its own |
| GcRuns.ChangesExactly | src/git-service.js:309-368 | each event changes just what is stated of the worktree, the safety ref, the lock, the record and the attempts: the ref is created only where there is none, the lock is taken only when there is none and taken away by whoever unlinks, the tree goes only by a removal that finds it clean |
| GcRuns.ChoicesExactly | src/git-service.js:309-368 | an attempt makes its steps in the order of the source and no other |
| GcRuns.NoContentionNoRobbery | src/git-service.js:316-327 | while every attempt gets the lock it asks for, nobody's lock is taken away, whatever git commands fail |
| GcRuns.QuietCollectionLosesNothing | src/git-service.js:309-368 | then every removed worktree had exactly the expected commit checked out |
| GcRuns.MeetingALockCanLoseACommit | src/git-service.js:360-366 | a run in which the unlink after a failed attempt lets a commit be lost |
| GcAlone.AloneDecides | src/git-service.js:309-368 | an attempt that is not interfered with is over after ten steps: it changes nothing when the worktree is not as expected or the safety ref names another commit; otherwise the ref is there, the worktree is gone exactly when the lock was free, and the lock is gone in any case |
| GcAlone.AloneIsTheCleanup | src/task-service.js:429-491 | so the separate steps, between which others may come, do together just what the cleanup of the task does at once: same success, same worktree, same ref, same lock |
| WorkflowService.WorkflowStore.Start | src/workflow-service.js:238-323 | the refusals and the routed initial document, which is in order |
| WorkflowService.WorkflowStore.Update | src/workflow-service.js:377-500 | the new document, or a refusal that changes nothing, with the results of both review axes trimmed and in upper case; a document in order stays in order |
| WorkflowService.WorkflowStore.Advance | src/workflow-service.js:650-826 | the same for an event, after the caller's reassessment, and the phase moves along one of the event's edges |
| WorkflowLaws.StartMeans | src/workflow-service.js:238-323 | the start is refused exactly for the stated reasons, and its phase follows from setup, clarity, settledness and span: setup first, then wayfinding if unclear, grilling if unsettled, and otherwise specification or implementation by span |
| WorkflowLaws.RefusalMeans | src/workflow-service.js:708-786 | an event is accepted exactly in its phases and when its gate passes: no open decision and a known span, evidence of every linked task, a review that clears it; and refused for the first of these that fails |
| WorkflowLaws.NextMeans | src/workflow-service.js:708-807 | an accepted event changes only what is stated; grilling leads to specification and specification to tickets exactly for several sessions, and both to implementation otherwise |
| WorkflowLaws.AdvanceMeans | src/workflow-service.js:650-826 | a whole advance: the reassessment, the event and one history entry, of which the last 200 stay |
| WorkflowLaws.UpdateMeans | src/workflow-service.js:377-500 | a whole update: the refusals in order, and every field that changes |
| WorkflowService.Transition | src/workflow-service.js:708-807 | the switch over the twelve events with its gates |
| WorkflowService.CaptureImplementationEvidence | src/workflow-service.js:567-598 | without linked tasks there is none; otherwise one unit per linked task, sorted by task and fingerprinted, exactly when every linked task is evidence, and else what is wrong with the first that is not |
| WorkflowUnits.LinkOrderDoesNotMatter | src/workflow-service.js:567-598 | the evidence depends on which tasks are linked only: in whatever order and however often they are linked, the units and the fingerprint are the same |
| WorkflowService.AssertReviewPassed | src/workflow-service.js:622-635 | the review must be there, target the captured evidence, and pass both axes with nothing blocking; refused for the first of these that fails |
| WorkflowRuns.HistoryIsAChain | src/workflow-service.js:811-821 | in every run the retained history is a contiguous chain of phases ending at the current one, at most 200 long |
| WorkflowRuns.PhasesMoveAlongEdges | src/workflow-service.js:708-807 | in every run phases change only along a fixed set of edges; done is entered only from review, by its passing event |
| WorkflowRuns.GatesLeadBySpan | src/workflow-service.js:708-765 | in every run an accepted end of grilling leads to specification exactly if the span then stored is several sessions, an accepted end of specification to tickets exactly then, and both to implementation otherwise |
| WorkflowRuns.StartsWhereRouted | src/workflow-service.js:238-323 | in every run the phase of a start, direct or after setup, follows span, clarity and settledness |
| WorkflowRuns.DoneIsFinal | src/workflow-service.js:405-411 | a finished workflow never changes again |
| WorkflowRuns.GateBeforeBuild | src/workflow-service.js:637-648 | a workflow started unsettled reaches specification or later only after a gate with no open decision |
| WorkflowRuns.ResumeRestores | src/workflow-service.js:793-804 | the first resume after a block restores the phase it was blocked in |
| WorkflowRuns.PrototypeReturns | src/workflow-service.js:723-736 | a prototype returns to the phase that asked for it exactly when that is grilling or nothing was blocked meanwhile |
| WorkflowReview.BlockedPrototypeForgetsWayfinding | src/workflow-service.js:793-804 | the concrete run in which it does not, for any goal that `start` accepts |
| WorkflowRuns.EvidenceDuringReview | src/workflow-service.js:456-470 | during a review the evidence is there exactly when tasks were linked at the end of implementation and not linked anew since |
| WorkflowRuns.DoneMeansReviewed | src/workflow-service.js:782-786 | a finished workflow with evidence was reviewed on it, on both axes, and every linked task is a completed task of the repository, verified if it had a contract |
| WorkflowRuns.ReviewedTargetIsTheWork | src/workflow-service.js:567-635 | and the reviewed target determines the work: whatever units have that fingerprint are exactly the units of the linked tasks as they stand now |
| WorkflowReview.ReviewCheckedExactly | src/workflow-service.js:774-786 | every run that ends went through a review that began with a finished implementation, and the review was checked exactly when tasks were linked then and not linked anew since |
| WorkflowReview.RelinkingSkipsTheReview | src/workflow-service.js:456-470 | a run of four calls that ends without a review, with an unfinished task as its only work |

## Left out

- Sockets, HTTP and stdio transports, tool registration, spawning and signalling, files and running Git: only their effect and failure outcomes appear.
- The JSON state backend: a single-process mode without transactions; the model has the SQLite semantics.
- Timestamps, revisions, audit entries and messages of stored documents, except where a decision reads them.
- `validateStep` and the plan fingerprint: field-by-field input checks; `PlanModel.NewPlan` states what they establish.
- Step timeouts: a run may end in any way at any time, which includes the timeout's outcome.
- Evidence recorded by plan steps: it goes through `Task.TaskRecord.RecordEvidence`.
- `takeover` of an operation record: no code calls it.
- Parsing of enumerated inputs of the workflow: its inputs are typed, so the refusals of unknown names do not occur. The trimming and upper-casing of evidence kinds is an arbitrary function.
- The sorting of the preview's lists and its totals: lists follow the order of the tasks.
- The locale's order of task identifiers: units are sorted by code unit, which is the same for the lower-case hexadecimal identifiers the service draws.
- Workflow guidance texts, skill lookup and setup inspection: the setup check is one boolean.
- Configuration, hygiene and activity reports, search, skills, installers: readable branch by branch.
- PlanSafety.CommitExactlyOnce: assumes that nothing else touches the worktree during the commit step, as the code cannot tell another writer's commit from its own.
- PlanSafety.NothingUndone: is about guarded runs; without the guard it is false by `PlanLate.LateSettlementUndoes`, and one change is harmless exactly as `PlanHarmless.HarmlessExactly` says.
- PlanService.StoredPlan.SettleRun: a snapshot that is no longer the stored step gives the stated new plan without the promise of order, as in the code.
- RunStart.OneChildPerKey: holds until the key's record is deleted by retention, after which the code may start the key anew.
- RunStart.FinalTaskKnowsItsChildren: says that live children are registered, not that there are none, because finishing checks active runs before its mutation only.
- GcRuns.SafetyRefNeverMoves: other programs that move refs are not part of the model.
- TextView.TextView: is about a stream that is not written to meanwhile.
- OutputStream.RunOutput.Append: takes text; a character whose bytes arrive in two data events has become replacement characters before.
- OutputStream.SplitUtf8Text: texts are sequences of Unicode scalar values; a lone surrogate half, which a JavaScript string can hold, is not modelled.
- GcEligibility.PreviewOne: the details of path and link checks are one abstract outcome, since they depend on the file system.
