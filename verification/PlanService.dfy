/** The stored plan as the service updates it in place. Each method is one
    transaction (or one stretch of the driver between two suspensions) and is
    proved against the mutation of the same name in PlanModel and against what
    PlanLaws says of it; what the invariants say of it, the method keeps. */
module PlanService {
  import opened Base
  import M = PlanModel
  import I = PlanInvariants
  import L = PlanLaws

  /** What a call comes to that leaves `p` unless it is refused. */
  function Outcome(error: Option<M.ContinueError>, p: M.Plan): Result<M.Plan, M.ContinueError> {
    if error.None? then Ok(p) else Err(error.value)
  }

  class StoredPlan {
    var status: M.PlanStatus
    var steps: seq<M.Step>
    var driver: Option<string>
    var leaseUntil: Option<int>
    var cancelRequested: bool
    var blocker: Option<M.Blocker>

    ghost function State(): M.Plan
      reads this
    {
      M.Plan(status, steps, driver, leaseUntil, cancelRequested, blocker)
    }

    ghost predicate Valid()
      reads this
    {
      I.PlanOk(State())
    }

    /** The plan is as the driver that holds the snapshot `step` left it. */
    ghost predicate At(i: nat, step: M.Step)
      reads this
    {
      Valid() && status == M.Active && I.Chosen(State(), i) && steps[i] == step
    }

    /** The plan is in order and has not gone back behind `p`. */
    ghost predicate KeptFrom(p: M.Plan)
      reads this
    {
      Valid() && I.Progress(p, State())
    }

    // What the invariants say of each mutation, for the state of this object.

    lemma {:induction false} ContinueKeeps(stepId: string)
      ensures var r := M.ContinueCall(State(), stepId);
        Valid() && r.Ok? ==> I.PlanOk(r.value) && I.Progress(State(), r.value) && I.NoneFailed(r.value.steps)
    {
      if Valid() && M.ContinueCall(State(), stepId).Ok? {
        I.ContinueCallOk(State(), stepId);
      }
    }

    lemma {:induction false} RecordStartKeeps(i: nat, run: string)
      requires i < |steps|
      ensures var q := M.RecordStart(State(), i, run);
        At(i, steps[i]) && steps[i].action == M.Command && steps[i].status == M.Pending ==>
          I.PlanOk(q) && I.Progress(State(), q) && I.Chosen(q, i)
    {
      if At(i, steps[i]) && steps[i].action == M.Command && steps[i].status == M.Pending {
        I.RecordStartOk(State(), i, run);
      }
    }

    lemma {:induction false} BeginCommitKeeps(i: nat, head: string)
      requires i < |steps|
      ensures var q := M.BeginCommit(State(), i, head);
        At(i, steps[i]) && steps[i].action == M.GitCommit && steps[i].status == M.Pending ==>
          I.PlanOk(q) && I.Progress(State(), q) && I.Chosen(q, i)
    {
      if At(i, steps[i]) && steps[i].action == M.GitCommit && steps[i].status == M.Pending {
        I.BeginCommitOk(State(), i, head);
      }
    }

    lemma {:induction false} SettleRunKeeps(i: nat, step: M.Step, t: M.Terminal)
      requires i < |steps|
      ensures var (q, next) := M.SettleRun(State(), i, step, t);
        At(i, step) && step.action == M.Command && step.status == M.Running ==>
          I.PlanOk(q) && I.Progress(State(), q) && (next == M.Return <==> q.status != M.Active)
    {
      if At(i, step) && step.action == M.Command && step.status == M.Running {
        I.SettleRunOk(State(), i, t);
      }
    }

    lemma {:induction false} SettleActionKeeps(i: nat, step: M.Step, ok: bool)
      requires i < |steps|
      ensures var (q, next) := M.SettleAction(State(), i, step, ok);
        At(i, step) && (step.action == M.GitCommit || step.action == M.TaskFinish) ==>
          I.PlanOk(q) && I.Progress(State(), q) && (next == M.Return <==> q.status != M.Active)
    {
      if At(i, step) && (step.action == M.GitCommit || step.action == M.TaskFinish) {
        I.SettleActionOk(State(), i, ok);
      }
    }

    lemma {:induction false} DriveKeeps(me: string, now: int, taskCompleted: bool)
      ensures var (q, next) := M.Drive(State(), me, now, taskCompleted);
        && (Valid() ==> I.PlanOk(q) && I.Progress(State(), q))
        && (Valid() && (next.Start? || next.Poll? || next.Act?) ==> M.Owns(q, me) && I.Chosen(q, next.i))
        && (Valid() && next == M.Return && M.Owns(State(), me) ==> q.status != M.Active)
    {
      if Valid() && M.Owns(State(), me) {
        I.DriveOwnedOk(M.RenewDriver(State(), me, now), me, taskCompleted);
      }
    }

    constructor (initial: seq<M.Step>)
      requires forall i | 0 <= i < |initial| :: M.FreshStep(initial[i])
      ensures State() == M.Plan(M.Active, initial, None, None, false, None)
      ensures M.NewPlan(State()) ==> Valid()
    {
      status, steps := M.Active, initial;
      driver, leaseUntil, cancelRequested, blocker := None, None, false, None;
      new;
      if M.NewPlan(State()) {
        I.NewPlanOk(State());
      }
    }

    method Park(next: M.PlanStatus, code: M.BlockerCode, stepId: Option<string>)
      modifies this
      ensures State() == M.Park(old(State()), next, code, stepId)
    {
      status := next;
      blocker := Some(M.Blocker(code, stepId));
    }

    method Cancel()
      modifies this
      ensures State() == M.CancelCall(old(State())) && L.CancelAsked(old(State()), State())
      ensures old(Valid()) ==> KeptFrom(old(State()))
    {
      L.CancelCallMeans(State());
      if Valid() {
        I.CancelCallOk(State());
      }
      if M.IsFinal(status) {
        return;
      }
      cancelRequested := true;
      if status != M.Active {
        status := M.Active;
        driver := None;
        leaseUntil := None;
      }
    }

    method Find(stepId: string) returns (k: nat)
      ensures k == M.FindStep(steps, stepId)
    {
      k := 0;
      while k < |steps| && steps[k].id != stepId
        invariant k <= |steps| && forall j | 0 <= j < k :: steps[j].id != stepId
      {
        k := k + 1;
      }
    }

    method Continue(stepId: string) returns (error: Option<M.ContinueError>)
      modifies this
      ensures M.ContinueCall(old(State()), stepId) == Outcome(error, State())
      ensures L.Continues(old(State()), stepId, Outcome(error, State()))
      ensures error.Some? ==> State() == old(State())
      ensures old(Valid()) && error.None? ==> KeptFrom(old(State())) && I.NoneFailed(steps)
    {
      ghost var r := M.ContinueCall(State(), stepId);
      ContinueKeeps(stepId);
      L.ContinueMeans(State(), stepId);
      if !M.IsAwaiting(status) {
        return Some(M.NotWaiting);
      }
      if status == M.AwaitingAssistant
        && !(blocker.Some? &&
             (blocker.value.code == M.ReasoningRequired || blocker.value.code == M.HumanConfirmationRequired))
      {
        return Some(M.RepairRequired);
      }
      var k := Find(stepId);
      if k == |steps| || blocker.None? || blocker.value.stepId != Some(stepId) {
        return Some(M.StepMismatch);
      }
      if M.IsBarrier(steps[k].action) {
        steps := steps[k := steps[k].(status := M.Passed)];
      } else {
        steps := steps[k := steps[k].(status := M.Pending)];
      }
      status, blocker := M.Active, None;
      driver, leaseUntil := None, None;
      assert r == Outcome(None, State());
      return None;
    }

    /** Takes the plan over unless another driver holds an unexpired lease on it. */
    method EnsureDriver(me: string, now: int) returns (claimed: bool)
      modifies this
      ensures L.Claims(old(State()), me, now, claimed, State())
      ensures claimed <==> M.Claimable(old(State()), me, now)
      ensures State() == if claimed then M.ClaimDriver(old(State()), me, now) else old(State())
      ensures old(Valid()) ==> Valid()
    {
      claimed := false;
      if status != M.Active {
        return;
      }
      if driver.Some? && driver.value != me && leaseUntil.Some? && leaseUntil.value > now {
        return;
      }
      driver := Some(me);
      leaseUntil := Some(now + M.DRIVER_LEASE_MS);
      claimed := true;
    }

    /** True exactly for the owner of an active plan, who then holds more than half a lease. */
    method RenewDriver(me: string, now: int) returns (owned: bool)
      modifies this
      ensures L.Renews(old(State()), me, now, owned, State())
      ensures owned <==> M.Owns(old(State()), me)
      ensures State() == if owned then M.RenewDriver(old(State()), me, now) else old(State())
      ensures old(Valid()) ==> Valid()
      ensures owned ==> leaseUntil.Some? && 2 * (leaseUntil.value - now) > M.DRIVER_LEASE_MS
    {
      if driver != Some(me) || status != M.Active {
        return false;
      }
      if leaseUntil.None? || 2 * (leaseUntil.value - now) <= M.DRIVER_LEASE_MS {
        leaseUntil := Some(now + M.DRIVER_LEASE_MS);
      }
      return true;
    }

    method DependenciesPassed(s: M.Step) returns (ok: bool)
      ensures ok <==> M.DepsPassed(steps, s)
      ensures ok <==> forall d | d in s.deps :: L.DependencyPassed(steps, d)
    {
      L.DependenciesMean(steps, s);
      var d := 0;
      while d < |s.deps|
        invariant 0 <= d <= |s.deps|
        invariant forall e | 0 <= e < d :: M.PassedId(steps, s.deps[e])
      {
        var k := 0;
        while k < |steps| && !M.PassedAs(steps[k], s.deps[d])
          invariant k <= |steps| && forall j | 0 <= j < k :: !M.PassedAs(steps[j], s.deps[d])
        {
          k := k + 1;
        }
        if k == |steps| {
          assert !M.PassedId(steps, s.deps[d]);
          return false;
        }
        assert M.PassedId(steps, s.deps[d]);
        d := d + 1;
      }
      return true;
    }

    /** The running step, else the first ready one, else the number of steps. */
    method ChooseStep() returns (i: nat)
      ensures i == M.NextStep(steps) && (i < |steps| ==> L.Picks(steps, i)) && (i == |steps| ==> L.NoWork(steps))
    {
      L.NextStepMeans(steps);
      i := 0;
      while i < |steps| && steps[i].status != M.Running
        invariant i <= |steps| && forall j | 0 <= j < i :: steps[j].status != M.Running
      {
        i := i + 1;
      }
      if i < |steps| {
        return;
      }
      i := 0;
      while i < |steps|
        invariant i <= |steps| && forall j | 0 <= j < i :: !M.IsReady(steps, steps[j])
      {
        if steps[i].status == M.Pending {
          var ready := DependenciesPassed(steps[i]);
          if ready {
            return;
          }
        }
        i := i + 1;
      }
    }

    method CancelOccupied()
      modifies this
      ensures State() == M.CancelPlan(old(State())) && L.Cancels(old(State()), State())
      ensures old(Valid() && cancelRequested) ==> KeptFrom(old(State())) && I.NoneOccupied(steps)
    {
      ghost var q := M.CancelPlan(State());
      L.CancelPlanMeans(State());
      if Valid() && cancelRequested {
        I.CancelPlanOk(State());
      }
      Park(M.PlanCancelled, M.CancelRequested, None);
      var k := 0;
      while k < |steps| && !M.Occupied(steps[k].status)
        invariant k <= |steps| && forall j | 0 <= j < k :: !M.Occupied(steps[j].status)
      {
        k := k + 1;
      }
      if k < |steps| {
        steps := steps[k := steps[k].(status := M.Cancelled)];
      }
      assert State() == q;
    }

    method HasPending() returns (any: bool)
      ensures any <==> M.AnyPending(steps)
    {
      var k := 0;
      while k < |steps|
        invariant k <= |steps| && forall j | 0 <= j < k :: steps[j].status != M.Pending
      {
        if steps[k].status == M.Pending {
          return true;
        }
        k := k + 1;
      }
      return false;
    }

    /** The driver loop from its head to the next suspension point or return. What it hands
        out is a step whose dependencies have passed, and it never stops for want of one. */
    method DriveOnce(me: string, now: int, taskCompleted: bool) returns (next: M.Next)
      modifies this
      ensures (State(), next) == M.Drive(old(State()), me, now, taskCompleted)
      ensures L.Drives(old(State()), me, now, taskCompleted, State(), next)
      ensures old(Valid()) ==> KeptFrom(old(State()))
      ensures old(Valid()) && (next.Start? || next.Poll? || next.Act?) ==>
        M.Owns(State(), me) && next.i < |steps| && At(next.i, steps[next.i])
      ensures old(Valid()) && next == M.Return && M.Owns(old(State()), me) ==> status != M.Active
    {
      DriveKeeps(me, now, taskCompleted);
      L.DriveMeans(State(), me, now, taskCompleted);
      var owned := RenewDriver(me, now);
      if !owned {
        return M.Return;
      }
      if cancelRequested {
        CancelOccupied();
        return M.Return;
      }
      var i := ChooseStep();
      if i == |steps| {
        var pending := HasPending();
        if pending {
          Park(M.AwaitingAssistant, M.DependencyBlocked, None);
        } else {
          status := if taskCompleted then M.Completed else M.ReadyToCommit;
          blocker := None;
        }
        return M.Return;
      }
      if steps[i].action == M.GitCommit || steps[i].action == M.TaskFinish {
        return M.Act(i);
      }
      if steps[i].status == M.Pending {
        if M.IsBarrier(steps[i].action) {
          var human := steps[i].action == M.HumanBarrier;
          var id := steps[i].id;
          steps := steps[i := steps[i].(status := M.Waiting)];
          if human {
            Park(M.AwaitingUser, M.HumanConfirmationRequired, Some(id));
          } else {
            Park(M.AwaitingAssistant, M.ReasoningRequired, Some(id));
          }
          return M.Return;
        }
        return M.Start(i);
      }
      return M.Poll(i);
    }

    /** By the driver whose snapshot is still the stored step, a start keeps the plan in order. */
    method RecordStart(i: nat, run: string)
      requires i < |steps|
      modifies this
      ensures State() == M.RecordStart(old(State()), i, run) && L.Started(old(State()), i, run, State())
      ensures old(At(i, steps[i]) && steps[i].action == M.Command && steps[i].status == M.Pending) ==>
        KeptFrom(old(State())) && At(i, steps[i])
    {
      var s := steps[i];
      ghost var q := M.RecordStart(State(), i, run);
      RecordStartKeeps(i, run);
      L.StartMeans(State(), i, run);
      steps := steps[i := s.(status := M.Running, runId := Some(run), attempts := s.attempts + 1)];
      assert State() == q;
    }

    /** Records how the run of the driver's snapshot `step` ended: passed exactly if it exited with a
        code the step accepts, else retried while attempts are left, else ended as the run did. */
    method SettleRun(i: nat, step: M.Step, t: M.Terminal) returns (next: M.Next)
      requires i < |steps|
      modifies this
      ensures (State(), next) == M.SettleRun(old(State()), i, step, t)
      ensures L.RunSettled(old(State()), i, step, t, State(), next)
      ensures i < |steps|
      ensures steps[i].status == M.Passed <==>
        t.status == M.Exited && t.exitCode.Some? && t.exitCode.value in step.exitCodes
      ensures steps[i].status == M.Pending <==> steps[i].status != M.Passed && step.attempts < step.maxAttempts
      ensures steps[i].status == M.Cancelled ==> t.status == M.RunCancelled
      ensures steps[i].status == M.Interrupted ==> t.status == M.RunInterrupted
      ensures steps[i].status == M.Failed ==> t.status == M.Exited || t.status == M.RunFailed
      ensures steps[i].status in {M.Passed, M.Pending, M.Cancelled, M.Interrupted, M.Failed}
      ensures old(At(i, step)) && step.action == M.Command && step.status == M.Running ==>
        KeptFrom(old(State())) && (next == M.Return <==> status != M.Active)
    {
      var s := steps[i];
      SettleRunKeeps(i, step, t);
      L.SettleRunMeans(State(), i, step, t);
      if t.status == M.Exited && t.exitCode.Some? && t.exitCode.value in step.exitCodes {
        steps := steps[i := s.(status := M.Passed, exitCode := t.exitCode)];
        return if step.wantsEvidence then M.RecordEvidence(i) else M.Loop;
      }
      if step.attempts < step.maxAttempts {
        steps := steps[i := s.(status := M.Pending, runId := None, exitCode := t.exitCode)];
        return M.Loop;
      }
      var ended := if t.status == M.RunCancelled then M.Cancelled
                   else if t.status == M.RunInterrupted then M.Interrupted else M.Failed;
      steps := steps[i := s.(status := ended, exitCode := t.exitCode)];
      Park(M.AwaitingAssistant, M.StepFailed, Some(step.id));
      return M.Return;
    }

    method BeginCommit(i: nat, head: string)
      requires i < |steps|
      modifies this
      ensures State() == M.BeginCommit(old(State()), i, head) && L.Committing(old(State()), i, head, State())
      ensures old(At(i, steps[i]) && steps[i].action == M.GitCommit && steps[i].status == M.Pending) ==>
        KeptFrom(old(State())) && At(i, steps[i])
    {
      var s := steps[i];
      ghost var q := M.BeginCommit(State(), i, head);
      BeginCommitKeeps(i, head);
      L.BeginMeans(State(), i, head);
      steps := steps[i := s.(status := M.Running, attempts := s.attempts + 1, startedHead := Some(head))];
      assert State() == q;
    }

    method SettleAction(i: nat, step: M.Step, ok: bool) returns (next: M.Next)
      requires i < |steps|
      modifies this
      ensures (State(), next) == M.SettleAction(old(State()), i, step, ok)
      ensures L.ActionSettled(old(State()), i, step, ok, State(), next)
      ensures old(At(i, step)) && (step.action == M.GitCommit || step.action == M.TaskFinish) ==>
        KeptFrom(old(State())) && (next == M.Return <==> status != M.Active)
    {
      SettleActionKeeps(i, step, ok);
      L.SettleActionMeans(State(), i, step, ok);
      if ok {
        steps := steps[i := steps[i].(status := M.Passed)];
        return M.Loop;
      }
      steps := steps[i := steps[i].(status := M.Failed)];
      Park(M.AwaitingAssistant, M.ActionFailed, Some(step.id));
      return M.Return;
    }
  }
}
