/** The stored plan document and the mutations that API calls and drivers make
    to it, each one atomic transaction on the document. */
module PlanModel {
  import opened Base
  import G = PlanGraph

  const DRIVER_LEASE_MS: int := 3000

  datatype Action = Command | ReasoningBarrier | HumanBarrier | GitCommit | TaskFinish

  datatype StepStatus = Pending | Running | Waiting | Passed | Failed | Cancelled | Interrupted

  datatype PlanStatus =
    | Active
    | ReadyToCommit
    | Completed
    | AwaitingAssistant
    | AwaitingApproval
    | AwaitingUser
    | PlanCancelled

  datatype BlockerCode =
    | ReasoningRequired
    | HumanConfirmationRequired
    | ApprovalRequired
    | StepFailed
    | ActionFailed
    | DriverError
    | DependencyBlocked
    | CancelRequested

  datatype Blocker = Blocker(code: BlockerCode, stepId: Option<string>)

  /** The fields before `status` never change after the plan is created. */
  datatype Step = Step(
    id: string,
    action: Action,
    deps: seq<string>,
    key: string,
    exitCodes: set<int>,
    maxAttempts: nat,
    wantsEvidence: bool,
    status: StepStatus,
    runId: Option<string>,
    attempts: nat,
    exitCode: Option<int>,
    startedHead: Option<string>)

  datatype Plan = Plan(
    status: PlanStatus,
    steps: seq<Step>,
    driver: Option<string>,
    leaseUntil: Option<int>,
    cancelRequested: bool,
    blocker: Option<Blocker>)

  datatype RunStatus = Exited | RunFailed | RunCancelled | RunInterrupted

  datatype Terminal = Terminal(status: RunStatus, exitCode: Option<int>)

  datatype ContinueError = NotWaiting | RepairRequired | StepMismatch

  /** Where a driver goes after a synchronous stretch of its loop. */
  datatype Next = Return | Loop | Start(i: nat) | Poll(i: nat) | Act(i: nat) | RecordEvidence(i: nat)

  predicate IsFinal(s: PlanStatus) {
    s == ReadyToCommit || s == Completed || s == PlanCancelled
  }

  predicate IsAwaiting(s: PlanStatus) {
    s == AwaitingAssistant || s == AwaitingApproval || s == AwaitingUser
  }

  predicate IsBarrier(a: Action) {
    a == ReasoningBarrier || a == HumanBarrier
  }

  predicate IsTerminalStep(s: StepStatus) {
    s == Passed || s == Failed || s == Cancelled || s == Interrupted
  }

  predicate Occupied(s: StepStatus) {
    s == Running || s == Waiting
  }

  function FindStep(steps: seq<Step>, id: string): (k: nat)
    ensures k <= |steps|
    ensures forall j | 0 <= j < k :: steps[j].id != id
    ensures k < |steps| ==> steps[k].id == id
  {
    FirstWhere(steps, (s: Step) => s.id == id)
  }

  predicate PassedAs(s: Step, id: string) {
    s.id == id && s.status == Passed
  }

  /** Ids are distinct, so this is the status of the one step called `id`. */
  predicate PassedId(steps: seq<Step>, id: string) {
    exists k :: 0 <= k < |steps| && PassedAs(steps[k], id)
  }

  predicate DepsPassed(steps: seq<Step>, s: Step) {
    forall d | d in s.deps :: PassedId(steps, d)
  }

  predicate IsReady(steps: seq<Step>, s: Step) {
    s.status == Pending && DepsPassed(steps, s)
  }

  function FirstRunning(steps: seq<Step>): (k: nat)
    ensures k <= |steps|
    ensures forall j | 0 <= j < k :: steps[j].status != Running
    ensures k < |steps| ==> steps[k].status == Running
  {
    FirstWhere(steps, (s: Step) => s.status == Running)
  }

  function FirstReady(steps: seq<Step>): (k: nat)
    ensures k <= |steps|
    ensures forall j | 0 <= j < k :: !IsReady(steps, steps[j])
    ensures k < |steps| ==> IsReady(steps, steps[k])
  {
    FirstWhere(steps, (s: Step) => IsReady(steps, s))
  }

  function FirstOccupied(steps: seq<Step>): (k: nat)
    ensures k <= |steps|
    ensures forall j | 0 <= j < k :: !Occupied(steps[j].status)
    ensures k < |steps| ==> Occupied(steps[k].status)
  {
    FirstWhere(steps, (s: Step) => Occupied(s.status))
  }

  /** The step the driver works on next: the running one, else the first ready one. */
  function NextStep(steps: seq<Step>): nat {
    if FirstRunning(steps) < |steps| then FirstRunning(steps) else FirstReady(steps)
  }

  predicate AnyPending(steps: seq<Step>) {
    exists i :: 0 <= i < |steps| && steps[i].status == Pending
  }

  function SetStep(p: Plan, i: nat, s: Step): Plan
    requires i < |p.steps|
  {
    p.(steps := p.steps[i := s])
  }

  function Park(p: Plan, status: PlanStatus, code: BlockerCode, stepId: Option<string>): Plan {
    p.(status := status, blocker := Some(Blocker(code, stepId)))
  }

  // ----- API calls -----

  function CancelCall(p: Plan): Plan {
    if IsFinal(p.status) then p
    else if p.status == Active then p.(cancelRequested := true)
    else p.(cancelRequested := true, status := Active, driver := None, leaseUntil := None)
  }

  predicate AtBarrier(p: Plan) {
    p.blocker.Some? && (p.blocker.value.code == ReasoningRequired || p.blocker.value.code == HumanConfirmationRequired)
  }

  function ContinueCall(p: Plan, stepId: string): Result<Plan, ContinueError> {
    if !IsAwaiting(p.status) then Err(NotWaiting)
    else if p.status == AwaitingAssistant && !AtBarrier(p) then Err(RepairRequired)
    else
      var k := FindStep(p.steps, stepId);
      if k == |p.steps| || p.blocker.None? || p.blocker.value.stepId != Some(stepId) then Err(StepMismatch)
      else
        var s := p.steps[k];
        var s' := s.(status := if IsBarrier(s.action) then Passed else Pending);
        Ok(SetStep(p, k, s').(status := Active, blocker := None, driver := None, leaseUntil := None))
  }

  // ----- Driver lease -----

  predicate Claimable(p: Plan, me: string, now: int) {
    p.status == Active &&
    (p.driver.None? || p.driver == Some(me) || p.leaseUntil.None? || p.leaseUntil.value <= now)
  }

  function ClaimDriver(p: Plan, me: string, now: int): Plan {
    p.(driver := Some(me), leaseUntil := Some(now + DRIVER_LEASE_MS))
  }

  predicate Owns(p: Plan, me: string) {
    p.status == Active && p.driver == Some(me)
  }

  function RenewDriver(p: Plan, me: string, now: int): Plan
    requires Owns(p, me)
  {
    if p.leaseUntil.Some? && 2 * (p.leaseUntil.value - now) > DRIVER_LEASE_MS then p
    else p.(leaseUntil := Some(now + DRIVER_LEASE_MS))
  }

  // ----- Driver loop: from its head to the next suspension point -----

  function CancelPlan(p: Plan): Plan {
    var k := FirstOccupied(p.steps);
    var q := if k < |p.steps| then SetStep(p, k, p.steps[k].(status := Cancelled)) else p;
    Park(q, PlanCancelled, CancelRequested, None)
  }

  function CompletePlan(p: Plan, taskCompleted: bool): Plan {
    p.(status := if taskCompleted then Completed else ReadyToCommit, blocker := None)
  }

  function ReachBarrier(p: Plan, i: nat): Plan
    requires i < |p.steps|
  {
    var s := p.steps[i];
    var q := SetStep(p, i, s.(status := Waiting));
    if s.action == HumanBarrier then Park(q, AwaitingUser, HumanConfirmationRequired, Some(s.id))
    else Park(q, AwaitingAssistant, ReasoningRequired, Some(s.id))
  }

  /** The loop body of the driver that has just renewed its lease. */
  function DriveOwned(p: Plan, taskCompleted: bool): (Plan, Next) {
    if p.cancelRequested then (CancelPlan(p), Return)
    else
      var i := NextStep(p.steps);
      if i == |p.steps| then
        if AnyPending(p.steps) then (Park(p, AwaitingAssistant, DependencyBlocked, None), Return)
        else (CompletePlan(p, taskCompleted), Return)
      else
        var s := p.steps[i];
        if s.action == GitCommit || s.action == TaskFinish then (p, Act(i))
        else if s.status != Pending then (p, Poll(i))
        else if IsBarrier(s.action) then (ReachBarrier(p, i), Return)
        else (p, Start(i))
  }

  function Drive(p: Plan, me: string, now: int, taskCompleted: bool): (Plan, Next) {
    if Owns(p, me) then DriveOwned(RenewDriver(p, me, now), taskCompleted) else (p, Return)
  }

  // ----- Driver mutations after a suspension; `step` is the driver's own snapshot -----

  function ApprovalNeeded(p: Plan, step: Step, user: bool): Plan {
    Park(p, if user then AwaitingUser else AwaitingApproval, ApprovalRequired, Some(step.id))
  }

  function RecordStart(p: Plan, i: nat, run: string): Plan
    requires i < |p.steps|
  {
    var s := p.steps[i];
    SetStep(p, i, s.(status := Running, runId := Some(run), attempts := s.attempts + 1))
  }

  predicate Succeeded(step: Step, t: Terminal) {
    t.status == Exited && t.exitCode.Some? && t.exitCode.value in step.exitCodes
  }

  function FailureStatus(t: Terminal): StepStatus {
    match t.status
    case RunCancelled => Cancelled
    case RunInterrupted => Interrupted
    case _ => Failed
  }

  function SettleRun(p: Plan, i: nat, step: Step, t: Terminal): (Plan, Next)
    requires i < |p.steps|
  {
    var s := p.steps[i];
    if Succeeded(step, t) then
      (SetStep(p, i, s.(status := Passed, exitCode := t.exitCode)),
       if step.wantsEvidence then RecordEvidence(i) else Loop)
    else if step.attempts < step.maxAttempts then
      (SetStep(p, i, s.(status := Pending, runId := None, exitCode := t.exitCode)), Loop)
    else
      (Park(SetStep(p, i, s.(status := FailureStatus(t), exitCode := t.exitCode)),
            AwaitingAssistant, StepFailed, Some(step.id)), Return)
  }

  function BeginCommit(p: Plan, i: nat, head: string): Plan
    requires i < |p.steps|
  {
    var s := p.steps[i];
    SetStep(p, i, s.(status := Running, attempts := s.attempts + 1, startedHead := Some(head)))
  }

  function SettleAction(p: Plan, i: nat, step: Step, ok: bool): (Plan, Next)
    requires i < |p.steps|
  {
    var s := p.steps[i];
    if ok then (SetStep(p, i, s.(status := Passed)), Loop)
    else (Park(SetStep(p, i, s.(status := Failed)), AwaitingAssistant, ActionFailed, Some(step.id)), Return)
  }

  function DriverFailure(p: Plan): Plan {
    if p.status == Active then Park(p, AwaitingAssistant, DriverError, None) else p
  }

  // ----- A new plan -----

  function GraphOf(steps: seq<Step>): (g: seq<G.Node>)
    ensures |g| == |steps|
    ensures forall i | 0 <= i < |g| :: g[i] == G.Node(steps[i].id, steps[i].deps)
  {
    if steps == [] then [] else [G.Node(steps[0].id, steps[0].deps)] + GraphOf(steps[1..])
  }

  ghost predicate FreshStep(s: Step) {
    s.status == Pending && s.attempts == 0 && s.runId.None? && s.startedHead.None? && 1 <= s.maxAttempts <= 3
  }

  /** What `start` stores: validated steps, all pending, driven by nobody. */
  ghost predicate NewPlan(p: Plan) {
    && p.status == Active && p.driver.None? && p.leaseUntil.None? && !p.cancelRequested && p.blocker.None?
    && 1 <= |p.steps| <= 32
    && (forall i | 0 <= i < |p.steps| :: FreshStep(p.steps[i]))
    && G.UniqueIds(GraphOf(p.steps)) && G.Closed(GraphOf(p.steps)) && G.Acyclic(GraphOf(p.steps))
  }
}
