/** What each operation on a stored plan does, said of the plan before and the plan after
    without the functions that compute it. */
module PlanLaws {
  import opened Base
  import opened PlanModel

  // ----- Calls -----

  /** A final plan stays; any other runs on with the request noted, a stopped one for a new driver. */
  ghost predicate CancelAsked(p: Plan, q: Plan) {
    && q.steps == p.steps && q.blocker == p.blocker
    && match p.status
       case ReadyToCommit | Completed | PlanCancelled => q == p
       case Active => q == p.(cancelRequested := true)
       case AwaitingAssistant | AwaitingApproval | AwaitingUser =>
         q.cancelRequested && q.status == Active && q.driver.None? && q.leaseUntil.None?
  }

  ghost predicate Waits(p: Plan) {
    p.status in {AwaitingAssistant, AwaitingApproval, AwaitingUser}
  }

  /** Stopped for the assistant, but not at a barrier. */
  ghost predicate NeedsRepair(p: Plan) {
    && p.status == AwaitingAssistant
    && (p.blocker.None? || p.blocker.value.code !in {ReasoningRequired, HumanConfirmationRequired})
  }

  ghost predicate FirstCalled(steps: seq<Step>, id: string, k: nat) {
    k < |steps| && steps[k].id == id && forall j | 0 <= j < k :: steps[j].id != id
  }

  /** The three refusals, and otherwise a running plan for a new driver in which the named step
      alone has moved: a barrier is passed, any other step is to be tried again. */
  ghost predicate Continues(p: Plan, id: string, r: Result<Plan, ContinueError>) {
    && (r == Err(NotWaiting) <==> !Waits(p))
    && (r == Err(RepairRequired) <==> NeedsRepair(p))
    && (r == Err(StepMismatch) <==>
          && Waits(p) && !NeedsRepair(p)
          && (p.blocker.None? || p.blocker.value.stepId != Some(id) || forall k :: !FirstCalled(p.steps, id, k)))
    && (r.Ok? ==>
          exists k :: FirstCalled(p.steps, id, k) && ContinuedAt(p, k, r.value))
  }

  ghost predicate ContinuedAt(p: Plan, k: nat, q: Plan) {
    && k < |p.steps| && q.status == Active && q.blocker.None? && q.driver.None? && q.leaseUntil.None?
    && q.cancelRequested == p.cancelRequested
    && OneStepMoved(p, k, q)
    && (var s := p.steps[k];
        q.steps[k] == s.(status := if s.action in {ReasoningBarrier, HumanBarrier} then Passed else Pending))
  }

  ghost predicate OneStepMoved(p: Plan, i: nat, q: Plan) {
    i < |p.steps| == |q.steps| && forall j | 0 <= j < |p.steps| && j != i :: q.steps[j] == p.steps[j]
  }

  // ----- Lease -----

  /** A running plan is taken over unless another driver's lease has not run out yet. */
  ghost predicate Claims(p: Plan, me: string, now: int, claimed: bool, q: Plan) {
    && (!claimed <==>
          p.status != Active ||
          (p.driver.Some? && p.driver.value != me && p.leaseUntil.Some? && p.leaseUntil.value > now))
    && q == if claimed then p.(driver := Some(me), leaseUntil := Some(now + 3000)) else p
  }

  /** The owner keeps more than half a lease; a lease that is longer is left alone. */
  ghost predicate Renews(p: Plan, me: string, now: int, owned: bool, q: Plan) {
    && (owned <==> p.status == Active && p.driver == Some(me))
    && (!owned ==> q == p)
    && (owned ==> LeaseKept(p, now, q))
  }

  ghost predicate LeaseKept(p: Plan, now: int, q: Plan) {
    && q == p.(leaseUntil := q.leaseUntil) && q.leaseUntil.Some?
    && (if p.leaseUntil.Some? && 2 * (p.leaseUntil.value - now) > 3000
        then q.leaseUntil == p.leaseUntil else q.leaseUntil.value == now + 3000)
  }

  // ----- The loop -----

  ghost predicate DependencyPassed(steps: seq<Step>, d: string) {
    exists k :: 0 <= k < |steps| && steps[k].id == d && steps[k].status == Passed
  }

  ghost predicate MayStart(steps: seq<Step>, i: nat)
    requires i < |steps|
  {
    steps[i].status == Pending && forall d | d in steps[i].deps :: DependencyPassed(steps, d)
  }

  /** The first step that runs; if none does, the first that may start. */
  ghost predicate Picks(steps: seq<Step>, i: nat) {
    && i < |steps|
    && (if exists j :: 0 <= j < |steps| && steps[j].status == Running
        then steps[i].status == Running && forall j | 0 <= j < i :: steps[j].status != Running
        else MayStart(steps, i) && forall j | 0 <= j < i :: !MayStart(steps, j))
  }

  ghost predicate NoWork(steps: seq<Step>) {
    forall i | 0 <= i < |steps| :: steps[i].status != Running && !MayStart(steps, i)
  }

  ghost predicate InProgress(s: Step) {
    s.status == Running || s.status == Waiting
  }

  ghost predicate StoppedFor(p: Plan, status: PlanStatus, code: BlockerCode, stepId: Option<string>, q: Plan) {
    q == p.(steps := q.steps, status := status, blocker := Some(Blocker(code, stepId)))
  }

  /** The plan is cancelled, and so is the first step in progress. */
  ghost predicate Cancels(p: Plan, q: Plan) {
    && StoppedFor(p, PlanCancelled, CancelRequested, None, q) && |q.steps| == |p.steps|
    && forall i | 0 <= i < |p.steps| ::
         q.steps[i] ==
           if InProgress(p.steps[i]) && (forall j | 0 <= j < i :: !InProgress(p.steps[j]))
           then p.steps[i].(status := Cancelled) else p.steps[i]
  }

  /** Nothing to do: blocked while steps are pending, else done with the task or before it is finished. */
  ghost predicate RunsOut(p: Plan, taskCompleted: bool, q: Plan) {
    if exists i :: 0 <= i < |p.steps| && p.steps[i].status == Pending
    then q == p.(status := AwaitingAssistant, blocker := Some(Blocker(DependencyBlocked, None)))
    else q == p.(status := if taskCompleted then Completed else ReadyToCommit, blocker := None)
  }

  /** The barrier waits, for the user or for the assistant. */
  ghost predicate Stops(p: Plan, i: nat, q: Plan)
    requires i < |p.steps|
  {
    var s := p.steps[i];
    && q.steps == p.steps[i := s.(status := Waiting)]
    && (s.action == HumanBarrier ==> StoppedFor(p, AwaitingUser, HumanConfirmationRequired, Some(s.id), q))
    && (s.action == ReasoningBarrier ==> StoppedFor(p, AwaitingAssistant, ReasoningRequired, Some(s.id), q))
  }

  ghost predicate TakesUp(p: Plan, i: nat, q: Plan, next: Next)
    requires i < |p.steps|
  {
    var s := p.steps[i];
    match s.action
    case GitCommit | TaskFinish => q == p && next == Act(i)
    case Command => q == p && next == if s.status == Pending then Start(i) else Poll(i)
    case ReasoningBarrier | HumanBarrier =>
      if s.status == Pending then Stops(p, i, q) && next == Return else q == p && next == Poll(i)
  }

  /** One stretch of the loop by the driver that owns the plan. */
  ghost predicate Turns(p: Plan, taskCompleted: bool, q: Plan, next: Next) {
    if p.cancelRequested then Cancels(p, q) && next == Return
    else
      && (NoWork(p.steps) ==> RunsOut(p, taskCompleted, q) && next == Return)
      && (forall i | Picks(p.steps, i) :: TakesUp(p, i, q, next))
  }

  /** The driver renews its lease, and takes its turn if the plan is still its own. */
  ghost predicate Drives(p: Plan, me: string, now: int, taskCompleted: bool, q: Plan, next: Next) {
    if p.status == Active && p.driver == Some(me)
    then var r := p.(leaseUntil := q.leaseUntil); LeaseKept(p, now, r) && Turns(r, taskCompleted, q, next)
    else q == p && next == Return
  }

  // ----- Changes after a suspension -----

  ghost predicate Started(p: Plan, i: nat, run: string, q: Plan) {
    && OneStepMoved(p, i, q) && q == p.(steps := q.steps)
    && q.steps[i] == p.steps[i].(status := Running, runId := Some(run), attempts := p.steps[i].attempts + 1)
  }

  ghost predicate Committing(p: Plan, i: nat, head: string, q: Plan) {
    && OneStepMoved(p, i, q) && q == p.(steps := q.steps)
    && q.steps[i] == p.steps[i].(status := Running, attempts := p.steps[i].attempts + 1, startedHead := Some(head))
  }

  /** The run ended by itself, with one of the exit codes the step accepts. */
  ghost predicate EndedWell(step: Step, t: Terminal) {
    t.status == Exited && t.exitCode.Some? && t.exitCode.value in step.exitCodes
  }

  /** The stored step after a run: passed exactly if the run ended well, to be tried again exactly
      if it did not and attempts are left, and otherwise ended as the run did. */
  ghost predicate StepAfterRun(s: Step, step: Step, t: Terminal, s': Step) {
    && s' == s.(status := s'.status, runId := s'.runId, exitCode := t.exitCode)
    && (s'.status == Passed <==> EndedWell(step, t))
    && (s'.status == Pending <==> !EndedWell(step, t) && step.attempts < step.maxAttempts)
    && (s'.status != Passed && s'.status != Pending ==>
          s'.status == match t.status
                       case RunCancelled => StepStatus.Cancelled
                       case RunInterrupted => StepStatus.Interrupted
                       case Exited | RunFailed => StepStatus.Failed)
    && s'.runId == if s'.status == Pending then None else s.runId
  }

  /** The plan after a run: stopped for repair exactly if the step has failed for good. */
  ghost predicate RunSettled(p: Plan, i: nat, step: Step, t: Terminal, q: Plan, next: Next) {
    && OneStepMoved(p, i, q) && StepAfterRun(p.steps[i], step, t, q.steps[i])
    && (if q.steps[i].status == Passed then
          q == p.(steps := q.steps) && next == if step.wantsEvidence then RecordEvidence(i) else Loop
        else if q.steps[i].status == Pending then q == p.(steps := q.steps) && next == Loop
        else StoppedFor(p, AwaitingAssistant, StepFailed, Some(step.id), q) && next == Return)
  }

  ghost predicate ActionSettled(p: Plan, i: nat, step: Step, ok: bool, q: Plan, next: Next) {
    && OneStepMoved(p, i, q) && q.steps[i] == p.steps[i].(status := if ok then Passed else StepStatus.Failed)
    && (if ok then q == p.(steps := q.steps) && next == Loop
        else StoppedFor(p, AwaitingAssistant, ActionFailed, Some(step.id), q) && next == Return)
  }

  // ----- The functions do this -----

  lemma {:induction false} CancelCallMeans(p: Plan)
    ensures CancelAsked(p, CancelCall(p))
  {
  }

  lemma {:induction false} ContinueMeans(p: Plan, id: string)
    ensures Continues(p, id, ContinueCall(p, id))
  {
    var k := FindStep(p.steps, id);
    if k < |p.steps| {
      assert FirstCalled(p.steps, id, k);
      if ContinueCall(p, id).Ok? {
        assert ContinuedAt(p, k, ContinueCall(p, id).value);
      }
    }
  }

  lemma {:induction false} ClaimMeans(p: Plan, me: string, now: int)
    ensures Claims(p, me, now, Claimable(p, me, now), if Claimable(p, me, now) then ClaimDriver(p, me, now) else p)
  {
  }

  lemma {:induction false} RenewMeans(p: Plan, me: string, now: int)
    ensures Renews(p, me, now, Owns(p, me), if Owns(p, me) then RenewDriver(p, me, now) else p)
  {
  }

  lemma {:induction false} DependenciesMean(steps: seq<Step>, s: Step)
    ensures DepsPassed(steps, s) <==> forall d | d in s.deps :: DependencyPassed(steps, d)
  {
    forall d ensures PassedId(steps, d) <==> DependencyPassed(steps, d) {
      DependencyMeans(steps, d);
    }
  }

  lemma {:induction false} DependencyMeans(steps: seq<Step>, d: string)
    ensures PassedId(steps, d) <==> DependencyPassed(steps, d)
  {
    forall k | 0 <= k < |steps| ensures PassedAs(steps[k], d) <==> steps[k].id == d && steps[k].status == Passed {
    }
  }

  lemma {:induction false} NextStepMeans(steps: seq<Step>)
    ensures NextStep(steps) < |steps| ==> Picks(steps, NextStep(steps))
    ensures NextStep(steps) == |steps| ==> NoWork(steps)
    ensures NextStep(steps) <= |steps|
    ensures forall i | Picks(steps, i) :: i == NextStep(steps)
  {
    forall i | 0 <= i < |steps| ensures IsReady(steps, steps[i]) <==> MayStart(steps, i) {
      DependenciesMean(steps, steps[i]);
    }
    var r := FirstRunning(steps);
    assert r < |steps| ==> steps[r].status == Running;
  }

  lemma {:induction false} CancelPlanMeans(p: Plan)
    ensures Cancels(p, CancelPlan(p))
  {
  }

  lemma {:induction false} TurnMeans(p: Plan, taskCompleted: bool)
    ensures var (q, next) := DriveOwned(p, taskCompleted); Turns(p, taskCompleted, q, next)
  {
    if p.cancelRequested {
      CancelPlanMeans(p);
    } else {
      NextStepMeans(p.steps);
    }
  }

  lemma {:induction false} DriveMeans(p: Plan, me: string, now: int, taskCompleted: bool)
    ensures var (q, next) := Drive(p, me, now, taskCompleted); Drives(p, me, now, taskCompleted, q, next)
  {
    if Owns(p, me) {
      RenewMeans(p, me, now);
      var r := RenewDriver(p, me, now);
      TurnMeans(r, taskCompleted);
      assert Drive(p, me, now, taskCompleted).0.leaseUntil == r.leaseUntil;
      assert r == p.(leaseUntil := r.leaseUntil);
    }
  }

  lemma {:induction false} ApprovalMeans(p: Plan, step: Step, user: bool)
    ensures
      StoppedFor(p, if user then AwaitingUser else AwaitingApproval, ApprovalRequired, Some(step.id),
                 ApprovalNeeded(p, step, user))
    ensures ApprovalNeeded(p, step, user).steps == p.steps
  {
  }

  lemma {:induction false} StartMeans(p: Plan, i: nat, run: string)
    requires i < |p.steps|
    ensures Started(p, i, run, RecordStart(p, i, run))
  {
  }

  lemma {:induction false} BeginMeans(p: Plan, i: nat, head: string)
    requires i < |p.steps|
    ensures Committing(p, i, head, BeginCommit(p, i, head))
  {
  }

  lemma {:induction false} SettleRunMeans(p: Plan, i: nat, step: Step, t: Terminal)
    requires i < |p.steps|
    ensures var (q, next) := SettleRun(p, i, step, t); RunSettled(p, i, step, t, q, next)
  {
  }

  lemma {:induction false} SettleActionMeans(p: Plan, i: nat, step: Step, ok: bool)
    requires i < |p.steps|
    ensures var (q, next) := SettleAction(p, i, step, ok); ActionSettled(p, i, step, ok, q, next)
  {
  }

  lemma {:induction false} FailureMeans(p: Plan)
    ensures if p.status == Active then StoppedFor(p, AwaitingAssistant, DriverError, None, DriverFailure(p))
            && DriverFailure(p).steps == p.steps
            else DriverFailure(p) == p
  {
  }
}
