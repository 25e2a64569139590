/** What every mutation of a plan keeps, independently of who makes it. */
module PlanInvariants {
  import opened Base
  import opened PlanModel
  import G = PlanGraph

  ghost predicate SameSpec(s: Step, t: Step) {
    && s.id == t.id && s.action == t.action && s.deps == t.deps && s.key == t.key
    && s.exitCodes == t.exitCodes && s.maxAttempts == t.maxAttempts && s.wantsEvidence == t.wantsEvidence
  }

  ghost predicate StepOk(s: Step) {
    && 1 <= s.maxAttempts <= 3
    && s.attempts <= s.maxAttempts
    && (s.status == Pending ==> s.attempts < s.maxAttempts)
    && (s.status == Waiting ==> IsBarrier(s.action))
    && (s.status == Running ==>
          && s.attempts >= 1
          && (s.action == Command ==> s.runId.Some?)
          && (s.action == GitCommit ==> s.startedHead.Some?)
          && !IsBarrier(s.action) && s.action != TaskFinish)
  }

  ghost predicate DepsOk(steps: seq<Step>, i: nat)
    requires i < |steps|
  {
    steps[i].status != Pending ==> DepsPassed(steps, steps[i])
  }

  /** A barrier or a run is in progress for at most one step. */
  ghost predicate OneOccupied(steps: seq<Step>) {
    forall i, j | 0 <= i < j < |steps| :: !(Occupied(steps[i].status) && Occupied(steps[j].status))
  }

  ghost predicate StepsOk(steps: seq<Step>) {
    && G.UniqueIds(GraphOf(steps)) && G.Closed(GraphOf(steps)) && G.Acyclic(GraphOf(steps))
    && (forall i | 0 <= i < |steps| :: StepOk(steps[i]))
    && (forall i | 0 <= i < |steps| :: DepsOk(steps, i))
    && OneOccupied(steps)
  }

  ghost predicate NoneFailed(steps: seq<Step>) {
    forall i | 0 <= i < |steps| ::
      steps[i].status == Pending || steps[i].status == Running || steps[i].status == Passed
  }

  ghost predicate NoneOccupied(steps: seq<Step>) {
    forall i | 0 <= i < |steps| :: !Occupied(steps[i].status)
  }

  ghost predicate AllPassed(steps: seq<Step>) {
    forall i | 0 <= i < |steps| :: steps[i].status == Passed
  }

  ghost predicate Resumable(p: Plan) {
    p.status == AwaitingApproval || p.status == AwaitingUser || (p.status == AwaitingAssistant && AtBarrier(p))
  }

  /** A resumable plan is stopped at one step: a waiting barrier, or a pending
      step that needs approval; every other step is pending or passed. */
  ghost predicate StoppedAt(p: Plan, k: nat) {
    && k < |p.steps|
    && p.blocker.Some? && p.blocker.value.stepId == Some(p.steps[k].id)
    && p.steps[k].status == (if IsBarrier(p.steps[k].action) then Waiting else Pending)
    && DepsPassed(p.steps, p.steps[k])
    && forall j | 0 <= j < |p.steps| && j != k :: p.steps[j].status == Pending || p.steps[j].status == Passed
  }

  ghost predicate StatusOk(p: Plan) {
    && (p.status == Active && !p.cancelRequested ==> NoneFailed(p.steps))
    && (Resumable(p) ==> exists k: nat :: StoppedAt(p, k))
    && (p.status == ReadyToCommit || p.status == Completed ==> AllPassed(p.steps))
    && (p.status == PlanCancelled ==> p.cancelRequested && NoneOccupied(p.steps))
    && (p.blocker.Some? ==> p.blocker.value.code != DependencyBlocked)
  }

  ghost predicate PlanOk(p: Plan) {
    StepsOk(p.steps) && StatusOk(p)
  }

  /** Progress of the steps between two states of one plan. */
  ghost predicate StepAdvances(s: Step, t: Step) {
    && SameSpec(s, t)
    && (IsTerminalStep(s.status) ==> t == s)
    && s.attempts <= t.attempts
  }

  ghost predicate Advances(steps: seq<Step>, steps': seq<Step>) {
    && |steps| == |steps'|
    && forall i | 0 <= i < |steps| :: StepAdvances(steps[i], steps'[i])
  }

  // ----- Remaining work -----

  function StepWork(s: Step): nat {
    if IsTerminalStep(s.status) then 0
    else if s.status == Waiting then 1
    else
      var left := if s.attempts < s.maxAttempts then s.maxAttempts - s.attempts else 0;
      if s.status == Pending then 2 * left + 1 else 2 * left + 2
  }

  function Work(steps: seq<Step>): nat {
    if steps == [] then 0 else StepWork(steps[0]) + Work(steps[1..])
  }

  lemma {:induction false} WorkOfChange(steps: seq<Step>, i: nat, s: Step)
    requires i < |steps|
    ensures Work(steps[i := s]) == Work(steps) - StepWork(steps[i]) + StepWork(s)
  {
    if i == 0 {
      assert steps[0 := s][1..] == steps[1..];
    } else {
      assert steps[i := s][1..] == steps[1..][i - 1 := s];
      WorkOfChange(steps[1..], i - 1, s);
    }
  }

  lemma {:induction false} WorkOfNewPlan(steps: seq<Step>)
    requires forall i | 0 <= i < |steps| :: FreshStep(steps[i])
    ensures Work(steps) <= 7 * |steps|
  {
    if steps != [] {
      WorkOfNewPlan(steps[1..]);
    }
  }

  // ----- One step changes -----

  lemma {:induction false} GraphUnchanged(steps: seq<Step>, i: nat, s: Step)
    requires i < |steps| && s.id == steps[i].id && s.deps == steps[i].deps
    ensures GraphOf(steps[i := s]) == GraphOf(steps)
  {
  }

  lemma {:induction false} FindsItself(steps: seq<Step>, i: nat)
    requires G.UniqueIds(GraphOf(steps)) && i < |steps|
    ensures FindStep(steps, steps[i].id) == i
  {
  }

  lemma {:induction false} PassedIdKept(steps: seq<Step>, i: nat, s: Step, d: string)
    requires i < |steps| && s.id == steps[i].id
    requires steps[i].status == Passed ==> s.status == Passed
    requires PassedId(steps, d)
    ensures PassedId(steps[i := s], d)
  {
    var k :| 0 <= k < |steps| && PassedAs(steps[k], d);
    assert PassedAs(steps[i := s][k], d);
  }

  ghost predicate GoodChange(steps: seq<Step>, i: nat, s: Step)
    requires i < |steps|
  {
    var was := steps[i];
    && SameSpec(was, s) && StepOk(s)
    && !IsTerminalStep(was.status) && was.status != s.status
    && was.attempts <= s.attempts
    && (s.status != Pending ==> DepsPassed(steps, was))
    && (Occupied(s.status) ==> NoneOccupied(steps))
    && StepWork(s) < StepWork(was)
  }

  lemma {:induction false} ChangeStep(steps: seq<Step>, i: nat, s: Step)
    requires StepsOk(steps) && i < |steps| && GoodChange(steps, i, s)
    ensures StepsOk(steps[i := s])
    ensures Advances(steps, steps[i := s])
    ensures Work(steps[i := s]) < Work(steps)
  {
    var steps' := steps[i := s];
    GraphUnchanged(steps, i, s);
    WorkOfChange(steps, i, s);
    forall j | 0 <= j < |steps'| ensures DepsOk(steps', j) {
      if steps'[j].status != Pending {
        assert DepsOk(steps, j);
        assert DepsPassed(steps, steps[j]);
        forall d | d in steps'[j].deps ensures PassedId(steps', d) {
          PassedIdKept(steps, i, s, d);
        }
      }
    }
  }

  // ----- A driver at the head of its loop always has something to do -----

  lemma {:induction false} DependencyIsEdge(steps: seq<Step>, i: nat, d: string)
    requires G.Closed(GraphOf(steps)) && G.UniqueIds(GraphOf(steps))
    requires i < |steps| && d in steps[i].deps
    ensures G.Edge(GraphOf(steps), steps[i].id, d)
    ensures exists j :: 0 <= j < |steps| && steps[j].id == d
  {
    var g := GraphOf(steps);
    assert g[i].id == steps[i].id && d in g[i].deps;
    var k :| 0 <= k < |g[i].deps| && g[i].deps[k] == d;
    assert G.GoodDependency(g, i, k);
    var j :| 0 <= j < |g| && g[j].id == d;
    assert steps[j].id == d;
  }

  lemma {:induction false} SomeStepReady(steps: seq<Step>)
    requires StepsOk(steps) && NoneFailed(steps) && FirstRunning(steps) == |steps| && !AllPassed(steps)
    ensures FirstReady(steps) < |steps|
  {
    var unpassed := set i | 0 <= i < |steps| && steps[i].status != Passed :: steps[i].id;
    var w :| 0 <= w < |steps| && steps[w].status != Passed;
    assert steps[w].id in unpassed;
    var a := G.AcyclicHasSource(GraphOf(steps), unpassed);
    var i :| 0 <= i < |steps| && steps[i].status != Passed && steps[i].id == a;
    forall d | d in steps[i].deps ensures PassedId(steps, d) {
      DependencyIsEdge(steps, i, d);
      assert d !in unpassed;
      var j :| 0 <= j < |steps| && steps[j].id == d;
      assert PassedAs(steps[j], d);
    }
    assert IsReady(steps, steps[i]);
  }

  lemma {:induction false} NothingLeft(steps: seq<Step>)
    requires StepsOk(steps) && NoneFailed(steps) && NextStep(steps) == |steps|
    ensures AllPassed(steps) && !AnyPending(steps)
  {
    if !AllPassed(steps) {
      SomeStepReady(steps);
    }
  }

  lemma {:induction false} NoRunningMeansNoneOccupied(steps: seq<Step>)
    requires NoneFailed(steps) && FirstRunning(steps) == |steps|
    ensures NoneOccupied(steps)
  {
  }

  // ----- Every mutation keeps the plan invariant -----

  lemma {:induction false} NewPlanOk(p: Plan)
    requires NewPlan(p)
    ensures PlanOk(p)
  {
  }

  lemma {:induction false} CancelCallOk(p: Plan)
    requires PlanOk(p)
    ensures PlanOk(CancelCall(p)) && Progress(p, CancelCall(p))
  {
  }

  /** The steps of `q` come from those of `p` by at most one good change. */
  ghost predicate Progress(p: Plan, q: Plan) {
    && Advances(p.steps, q.steps)
    && (q.steps == p.steps || Work(q.steps) < Work(p.steps))
  }

  function Reopened(p: Plan): Plan {
    p.(status := Active, blocker := None, driver := None, leaseUntil := None)
  }

  lemma {:induction false} PassBarrierOk(p: Plan, k: nat)
    requires PlanOk(p) && StoppedAt(p, k) && IsBarrier(p.steps[k].action)
    ensures var q := Reopened(SetStep(p, k, p.steps[k].(status := Passed)));
      PlanOk(q) && Progress(p, q) && NoneFailed(q.steps)
  {
    ChangeStep(p.steps, k, p.steps[k].(status := Passed));
  }

  lemma {:induction false} ReopenOk(p: Plan, k: nat)
    requires PlanOk(p) && StoppedAt(p, k) && !IsBarrier(p.steps[k].action)
    ensures PlanOk(Reopened(p)) && NoneFailed(p.steps)
  {
  }

  lemma {:induction false} ContinueCallOk(p: Plan, id: string)
    requires PlanOk(p) && ContinueCall(p, id).Ok?
    ensures PlanOk(ContinueCall(p, id).value) && Progress(p, ContinueCall(p, id).value)
    ensures NoneFailed(ContinueCall(p, id).value.steps)
  {
    var k: nat :| StoppedAt(p, k);
    FindsItself(p.steps, k);
    var s := p.steps[k];
    if IsBarrier(s.action) {
      PassBarrierOk(p, k);
    } else {
      ReopenOk(p, k);
      assert p.steps[k := s.(status := Pending)] == p.steps;
    }
  }

  lemma {:induction false} CancelledStepOk(steps: seq<Step>, k: nat)
    requires StepsOk(steps) && k < |steps| && Occupied(steps[k].status)
    ensures var steps' := steps[k := steps[k].(status := Cancelled)];
      StepsOk(steps') && Advances(steps, steps') && Work(steps') < Work(steps) && NoneOccupied(steps')
  {
    assert DepsOk(steps, k) && StepOk(steps[k]);
    ChangeStep(steps, k, steps[k].(status := Cancelled));
  }

  lemma {:induction false} CancelPlanOk(p: Plan)
    requires PlanOk(p) && p.cancelRequested
    ensures PlanOk(CancelPlan(p)) && IsFinal(CancelPlan(p).status)
    ensures Progress(p, CancelPlan(p))
  {
    var k, q := FirstOccupied(p.steps), CancelPlan(p);
    if k < |p.steps| {
      CancelledStepOk(p.steps, k);
    }
    assert NoneOccupied(q.steps);
    assert StatusOk(q);
  }

  /** The facts behind the step the loop head hands to a suspended operation. */
  ghost predicate Chosen(p: Plan, i: nat) {
    && i < |p.steps| && NoneFailed(p.steps) && DepsPassed(p.steps, p.steps[i])
    && (p.steps[i].status == Running || (p.steps[i].status == Pending && NoneOccupied(p.steps)))
  }

  lemma {:induction false} NextStepChosen(p: Plan)
    requires StepsOk(p.steps) && NoneFailed(p.steps) && NextStep(p.steps) < |p.steps|
    ensures Chosen(p, NextStep(p.steps))
  {
    var i := NextStep(p.steps);
    if FirstRunning(p.steps) == |p.steps| {
      NoRunningMeansNoneOccupied(p.steps);
    } else {
      assert DepsOk(p.steps, i);
    }
  }

  lemma {:induction false} BarrierOk(p: Plan, i: nat)
    requires PlanOk(p) && Chosen(p, i) && p.steps[i].status == Pending && IsBarrier(p.steps[i].action)
    ensures PlanOk(ReachBarrier(p, i)) && ReachBarrier(p, i).status != Active
    ensures Progress(p, ReachBarrier(p, i))
  {
    var s := p.steps[i].(status := Waiting);
    ChangeStep(p.steps, i, s);
    forall d | d in s.deps ensures PassedId(p.steps[i := s], d) {
      PassedIdKept(p.steps, i, s, d);
    }
    assert StoppedAt(ReachBarrier(p, i), i);
  }

  /** What one stretch of the driver loop guarantees. */
  ghost predicate DriveGood(p: Plan, me: string, q: Plan, next: Next) {
    && PlanOk(q) && Progress(p, q)
    && (next == Return ==> q.status != Active || !Owns(p, me))
    && (next != Return ==> Owns(q, me) && !q.cancelRequested && q.steps == p.steps && q.blocker == p.blocker)
    && (next.Start? || next.Poll? || next.Act? ==> Chosen(q, next.i))
    && (next.Start? ==> q.steps[next.i].action == Command && q.steps[next.i].status == Pending)
    && (next.Poll? ==> q.steps[next.i].action == Command && q.steps[next.i].status == Running)
    && (next.Act? ==> q.steps[next.i].action == GitCommit || q.steps[next.i].action == TaskFinish)
    && !next.Loop? && !next.RecordEvidence?
  }

  lemma {:induction false} DriveToBarrier(p: Plan, me: string)
    requires PlanOk(p) && Chosen(p, NextStep(p.steps)) && Owns(p, me)
    requires var s := p.steps[NextStep(p.steps)]; s.status == Pending && IsBarrier(s.action)
    ensures DriveGood(p, me, ReachBarrier(p, NextStep(p.steps)), Return)
  {
    BarrierOk(p, NextStep(p.steps));
  }

  lemma {:induction false} DriveToWork(p: Plan, me: string, next: Next)
    requires PlanOk(p) && Owns(p, me) && !p.cancelRequested
    requires next.Start? || next.Poll? || next.Act?
    requires Chosen(p, next.i)
    requires var s := p.steps[next.i];
      && (next.Act? ==> s.action == GitCommit || s.action == TaskFinish)
      && (next.Poll? ==> s.action == Command && s.status == Running)
      && (next.Start? ==> s.action == Command && s.status == Pending)
    ensures DriveGood(p, me, p, next)
  {
  }

  lemma {:induction false} DriveToStep(p: Plan, me: string, taskCompleted: bool)
    requires PlanOk(p) && Owns(p, me) && !p.cancelRequested && NextStep(p.steps) < |p.steps|
    ensures var (q, next) := DriveOwned(p, taskCompleted); DriveGood(p, me, q, next)
  {
    var i := NextStep(p.steps);
    NextStepChosen(p);
    var (q, next) := DriveOwned(p, taskCompleted);
    assert StepOk(p.steps[i]);
    if next == Return {
      DriveToBarrier(p, me);
    } else {
      DriveToWork(p, me, next);
    }
  }

  lemma {:induction false} DriveToEnd(p: Plan, me: string, taskCompleted: bool)
    requires PlanOk(p) && Owns(p, me) && !p.cancelRequested && NextStep(p.steps) == |p.steps|
    ensures var (q, next) := DriveOwned(p, taskCompleted); DriveGood(p, me, q, next)
  {
    NothingLeft(p.steps);
  }

  lemma {:induction false} DriveOwnedOk(p: Plan, me: string, taskCompleted: bool)
    requires PlanOk(p) && Owns(p, me)
    ensures var (q, next) := DriveOwned(p, taskCompleted); DriveGood(p, me, q, next)
  {
    if p.cancelRequested {
      CancelPlanOk(p);
    } else if NextStep(p.steps) == |p.steps| {
      DriveToEnd(p, me, taskCompleted);
    } else {
      DriveToStep(p, me, taskCompleted);
    }
  }

  lemma {:induction false} ApprovalOk(p: Plan, i: nat, user: bool)
    requires PlanOk(p) && Chosen(p, i) && p.steps[i].status == Pending && p.steps[i].action == Command
    ensures PlanOk(ApprovalNeeded(p, p.steps[i], user)) && Progress(p, ApprovalNeeded(p, p.steps[i], user))
  {
    assert StoppedAt(ApprovalNeeded(p, p.steps[i], user), i);
  }

  lemma {:induction false} WorkContinues(p: Plan, i: nat, s: Step)
    requires PlanOk(p) && Chosen(p, i) && p.status == Active && GoodChange(p.steps, i, s)
    requires s.status == Pending || s.status == Running || s.status == Passed
    ensures PlanOk(SetStep(p, i, s)) && Progress(p, SetStep(p, i, s)) && NoneFailed(SetStep(p, i, s).steps)
    ensures s.status == Running ==> Chosen(SetStep(p, i, s), i)
  {
    ChangeStep(p.steps, i, s);
    assert DepsOk(p.steps[i := s], i);
  }

  lemma {:induction false} WorkFails(p: Plan, i: nat, s: Step, code: BlockerCode)
    requires PlanOk(p) && Chosen(p, i) && p.status == Active && GoodChange(p.steps, i, s)
    requires s.status == Failed || s.status == Cancelled || s.status == Interrupted
    requires code == StepFailed || code == ActionFailed
    ensures var q := Park(SetStep(p, i, s), AwaitingAssistant, code, Some(s.id)); PlanOk(q) && Progress(p, q)
  {
    ChangeStep(p.steps, i, s);
  }

  lemma {:induction false} RecordStartOk(p: Plan, i: nat, run: string)
    requires PlanOk(p) && Chosen(p, i) && p.steps[i].status == Pending && p.steps[i].action == Command
    requires p.status == Active
    ensures PlanOk(RecordStart(p, i, run)) && Progress(p, RecordStart(p, i, run)) && Chosen(RecordStart(p, i, run), i)
  {
    WorkContinues(p, i, RecordStart(p, i, run).steps[i]);
  }

  lemma {:induction false} BeginCommitOk(p: Plan, i: nat, head: string)
    requires PlanOk(p) && Chosen(p, i) && p.steps[i].status == Pending && p.steps[i].action == GitCommit
    requires p.status == Active
    ensures PlanOk(BeginCommit(p, i, head)) && Progress(p, BeginCommit(p, i, head))
    ensures Chosen(BeginCommit(p, i, head), i)
  {
    WorkContinues(p, i, BeginCommit(p, i, head).steps[i]);
  }

  lemma {:induction false} SettleRunOk(p: Plan, i: nat, t: Terminal)
    requires PlanOk(p) && Chosen(p, i) && p.steps[i].status == Running && p.steps[i].action == Command
    requires p.status == Active
    ensures var (q, next) := SettleRun(p, i, p.steps[i], t);
      && PlanOk(q) && Progress(p, q)
      && (next == Return <==> q.status != Active)
      && (next != Return ==> NoneFailed(q.steps))
  {
    var s := p.steps[i];
    if Succeeded(s, t) {
      WorkContinues(p, i, s.(status := Passed, exitCode := t.exitCode));
    } else if s.attempts < s.maxAttempts {
      WorkContinues(p, i, s.(status := Pending, runId := None, exitCode := t.exitCode));
    } else {
      WorkFails(p, i, s.(status := FailureStatus(t), exitCode := t.exitCode), StepFailed);
    }
  }

  lemma {:induction false} SettleActionOk(p: Plan, i: nat, ok: bool)
    requires PlanOk(p) && Chosen(p, i)
    requires p.steps[i].action == GitCommit || p.steps[i].action == TaskFinish
    requires p.status == Active
    ensures var (q, next) := SettleAction(p, i, p.steps[i], ok);
      && PlanOk(q) && Progress(p, q)
      && (next == Return <==> q.status != Active)
      && (next != Return ==> NoneFailed(q.steps))
  {
    var s := p.steps[i];
    if ok {
      WorkContinues(p, i, s.(status := Passed));
    } else {
      WorkFails(p, i, s.(status := Failed), ActionFailed);
    }
  }

  lemma {:induction false} DriverFailureOk(p: Plan)
    requires PlanOk(p)
    ensures PlanOk(DriverFailure(p)) && Progress(p, DriverFailure(p)) && DriverFailure(p).status != Active
  {
    var q := DriverFailure(p);
    assert q.steps == p.steps && (p.status == Active ==> !AtBarrier(q));
  }
}
