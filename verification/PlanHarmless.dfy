/** Exactly which mutations by a driver that has lost its plan leave everything in order. */
module PlanHarmless {
  import opened Base
  import opened PlanInvariants
  import opened PlanModel
  import opened PlanRuns
  import opened PlanSafety
  import G = PlanGraph

  // ----- What the stored plan and the other drivers have to be like -----

  /** Every driver that owns the plan is at its loop head. */
  ghost predicate OwnerIdle(w: World) {
    forall d | d in w.drivers && Owns(w.plan, d) :: AtHead(w.drivers[d].pc)
  }

  /** No driver that owns the plan is at work on step `i`. */
  ghost predicate OwnerSpares(w: World, i: nat) {
    forall d | d in w.drivers && Owns(w.plan, d) :: AtHead(w.drivers[d].pc) || w.drivers[d].pc.i != i
  }

  ghost predicate NobodyTimely(w: World) {
    forall d | d in w.drivers :: !Timely(w, d)
  }

  /** The step may be put to `Running` by a driver that starts it. */
  ghost predicate Startable(w: World, i: nat)
    requires i < |w.plan.steps|
  {
    var p, s := w.plan, w.plan.steps[i];
    && !IsFinal(p.status) && !Resumable(p) && OwnerIdle(w)
    && s.attempts < s.maxAttempts && !IsBarrier(s.action) && s.action != TaskFinish
    && (s.status == Running || (s.status == Pending && DepsPassed(p.steps, s) && NoneOccupied(p.steps)))
  }

  /** The step may be passed: it has not ended, no barrier is answered behind the
      caller's back, and the owner is not at work on it. */
  ghost predicate Passable(w: World, i: nat)
    requires i < |w.plan.steps|
  {
    var p, s := w.plan, w.plan.steps[i];
    && !IsFinal(p.status) && !IsTerminalStep(s.status) && OwnerSpares(w, i)
    && (s.status == Pending ==> DepsPassed(p.steps, s))
    && (Resumable(p) ==> p.blocker.Some? && p.blocker.value.stepId != Some(s.id))
  }

  /** The plan may be stopped for repair with the step as `s'`. */
  ghost predicate Stoppable(w: World, i: nat, s': Step)
    requires i < |w.plan.steps|
  {
    var p, s := w.plan, w.plan.steps[i];
    && !IsFinal(p.status) && NobodyTimely(w)
    && (IsTerminalStep(s.status) ==> s' == s)
    && (s.status == Pending ==> DepsPassed(p.steps, s))
  }

  /** The plan may be stopped for the approval of the step called `id`: it waits for that step
      alone, and no other step has ended otherwise than by passing. */
  ghost predicate Approvable(w: World, id: string) {
    var p := w.plan;
    var k := FindStep(p.steps, id);
    && !IsFinal(p.status) && NobodyTimely(w)
    && k < |p.steps| && DepsPassed(p.steps, p.steps[k])
    && p.steps[k].status == (if IsBarrier(p.steps[k].action) then Waiting else Pending)
    && forall j | 0 <= j < |p.steps| && j != k :: p.steps[j].status == Pending || p.steps[j].status == Passed
  }

  ghost predicate OrderlyStart(w: World, pc: Pc, s: StartEvent)
    requires s.NeedApproval? ==> pc.Starting?
    requires s.SaveStart? ==> pc.Launched? && pc.i < |w.plan.steps|
  {
    match s
    case NeedApproval(_) => Approvable(w, pc.step.id)
    case SaveStart =>
      Startable(w, pc.i) && (w.plan.steps[pc.i].action == GitCommit ==> w.plan.steps[pc.i].startedHead.Some?)
    case _ => true
  }

  ghost predicate OrderlySettlement(w: World, pc: Pc)
    requires pc.Settling? && pc.i < |w.plan.steps|
  {
    var s, t := w.plan.steps[pc.i], pc.t;
    if Succeeded(pc.step, t) then Passable(w, pc.i) || (s.status == Passed && s.exitCode == t.exitCode)
    else if pc.step.attempts < pc.step.maxAttempts then
      || (s.status == Running && s.attempts < s.maxAttempts && OwnerSpares(w, pc.i))
      || (s.status == Pending && s.runId.None? && s.exitCode == t.exitCode)
    else Stoppable(w, pc.i, s.(status := FailureStatus(t), exitCode := t.exitCode))
  }

  ghost predicate OrderlyAction(w: World, pc: Pc, a: ActionEvent)
    requires a.ReadHead? ==> pc.ReadingHead? && pc.i < |w.plan.steps|
    requires a.SettleActionEnd? ==> pc.Acted? && pc.i < |w.plan.steps|
  {
    match a
    case ReadHead =>
      pc.step.status == Pending ==>
        Startable(w, pc.i) && (w.plan.steps[pc.i].action == Command ==> w.plan.steps[pc.i].runId.Some?)
    case SettleActionEnd(ok) =>
      if ok then Passable(w, pc.i) || w.plan.steps[pc.i].status == Passed
      else Stoppable(w, pc.i, w.plan.steps[pc.i].(status := Failed))
    case _ => true
  }

  /** The change leaves plan, leases and snapshots in order. */
  ghost predicate Orderly(w: World, id: string, d: DriverEvent)
    requires id in w.drivers && DriverEnabled(w, id, d)
  {
    var pc := w.drivers[id].pc;
    match d
    case FailDriver => w.plan.status == Active ==> NobodyTimely(w)
    case OnStart(s) => OrderlyStart(w, pc, s)
    case OnRun(r) => r.SettleRunEnd? ==> OrderlySettlement(w, pc)
    case OnAction(a) => OrderlyAction(w, pc, a)
    case _ => true
  }

  // ----- One step of a plan is overwritten -----

  ghost predicate OthersFree(steps: seq<Step>, i: nat) {
    forall j | 0 <= j < |steps| && j != i :: !Occupied(steps[j].status)
  }

  lemma {:induction false} NoSelfDependency(steps: seq<Step>, i: nat)
    requires G.Closed(GraphOf(steps)) && i < |steps|
    ensures steps[i].id !in steps[i].deps
  {
    var g := GraphOf(steps);
    forall k: nat | k < |steps[i].deps| ensures steps[i].deps[k] != steps[i].id {
      assert g[i].deps == steps[i].deps && G.GoodDependency(g, i, k);
    }
  }

  lemma {:induction false} DepsOfOverwritten(steps: seq<Step>, i: nat, s': Step)
    requires StepsOk(steps) && i < |steps| && SameSpec(steps[i], s')
    requires steps[i].status == Passed ==> s'.status == Passed
    ensures DepsPassed(steps[i := s'], s') <==> DepsPassed(steps, s')
  {
    NoSelfDependency(steps, i);
    forall d | d in s'.deps ensures PassedId(steps[i := s'], d) <==> PassedId(steps, d) {
      if PassedId(steps, d) {
        PassedIdKept(steps, i, s', d);
      } else {
        var steps' := steps[i := s'];
        forall k | 0 <= k < |steps| ensures !PassedAs(steps'[k], d) {
          assert !PassedAs(steps[k], d);
        }
      }
    }
  }

  ghost predicate Fits(steps: seq<Step>, i: nat, s': Step) {
    && StepOk(s')
    && (s'.status != Pending ==> DepsPassed(steps, s'))
    && (Occupied(s'.status) ==> OthersFree(steps, i))
  }

  lemma {:induction false} FittingKeepsSteps(steps: seq<Step>, i: nat, s': Step)
    requires StepsOk(steps) && i < |steps| && SameSpec(steps[i], s')
    requires steps[i].status == Passed ==> s'.status == Passed
    requires Fits(steps, i, s')
    ensures StepsOk(steps[i := s'])
  {
    var steps' := steps[i := s'];
    GraphUnchanged(steps, i, s');
    forall j | 0 <= j < |steps'| ensures DepsOk(steps', j) {
      if j == i {
        DepsOfOverwritten(steps, i, s');
      } else if steps'[j].status != Pending {
        assert DepsOk(steps, j);
        forall d | d in steps'[j].deps ensures PassedId(steps', d) {
          PassedIdKept(steps, i, s', d);
        }
      }
    }
  }

  lemma {:induction false} KeptStepsFit(steps: seq<Step>, i: nat, s': Step)
    requires StepsOk(steps) && i < |steps| && SameSpec(steps[i], s')
    requires steps[i].status == Passed ==> s'.status == Passed
    requires StepsOk(steps[i := s'])
    ensures Fits(steps, i, s')
  {
    var steps' := steps[i := s'];
    assert StepOk(steps'[i]) && DepsOk(steps', i);
    DepsOfOverwritten(steps, i, s');
    forall j | 0 <= j < |steps| && j != i ensures Occupied(s'.status) ==> !Occupied(steps[j].status) {
      assert steps'[j] == steps[j];
    }
  }

  /** The steps move forward with a step overwritten. */
  ghost predicate Moves(steps: seq<Step>, i: nat, s': Step)
    requires i < |steps|
  {
    s' == steps[i] ||
    (!IsTerminalStep(steps[i].status) && steps[i].attempts <= s'.attempts && StepWork(s') < StepWork(steps[i]))
  }

  lemma {:induction false} MovesExactly(p: Plan, q: Plan, i: nat, s': Step)
    requires i < |p.steps| && SameSpec(p.steps[i], s') && q.steps == p.steps[i := s']
    ensures Progress(p, q) <==> Moves(p.steps, i, s')
  {
    WorkOfChange(p.steps, i, s');
    assert q.steps[i] == s';
    if s' == p.steps[i] {
      assert q.steps == p.steps;
    }
    if Moves(p.steps, i, s') {
      forall j | 0 <= j < |p.steps| ensures StepAdvances(p.steps[j], q.steps[j]) {
      }
    }
  }

  // ----- A mutation that lets the plan run on -----

  ghost predicate OwnersFresh(w: World, q: Plan) {
    forall d | d in w.drivers && Owns(w.plan, d) :: Fresh(q, w.drivers[d].pc)
  }

  /** One step is overwritten; the plan's status and lease stay, and so do the other drivers. */
  ghost predicate Overwrites(w: World, w': World, id: string, i: nat, s': Step) {
    && i < |w.plan.steps| && SameSpec(w.plan.steps[i], s')
    && id in w.drivers && !Owns(w.plan, id)
    && w'.plan == SetStep(w.plan, i, s') && w'.now == w.now
    && w'.drivers.Keys == w.drivers.Keys
    && w'.drivers[id].renewedAt == w.drivers[id].renewedAt
    && forall d | d in w.drivers && d != id :: w'.drivers[d] == w.drivers[d]
  }

  ghost predicate OverwriteOk(w: World, i: nat, s': Step)
    requires i < |w.plan.steps|
  {
    var p := w.plan;
    && !IsFinal(p.status) && s' != p.steps[i] && Moves(p.steps, i, s') && Fits(p.steps, i, s')
    && StatusOk(SetStep(p, i, s')) && OwnersFresh(w, SetStep(p, i, s'))
  }

  lemma {:induction false} UnchangedKept(w: World, w': World, id: string, i: nat)
    requires Core(w) && i < |w.plan.steps| && Overwrites(w, w', id, i, w.plan.steps[i])
    ensures Kept(w, w')
  {
    assert w'.plan.steps == w.plan.steps;
    assert w'.plan == w.plan;
    SamePlanKept(w, w', id);
  }

  lemma {:induction false} SamePlanKept(w: World, w': World, id: string)
    requires Core(w) && w'.plan == w.plan && w'.now == w.now && id in w.drivers && !Owns(w.plan, id)
    requires w'.drivers.Keys == w.drivers.Keys && w'.drivers[id].renewedAt == w.drivers[id].renewedAt
    requires forall d | d in w.drivers && d != id :: w'.drivers[d] == w.drivers[d]
    ensures Kept(w, w')
  {
    forall d | d in w'.drivers ensures LeaseHeld(w', d) {
      assert LeaseHeld(w, d);
    }
  }

  lemma {:induction false} OverwriteKept(w: World, w': World, id: string, i: nat, s': Step)
    requires Core(w) && Overwrites(w, w', id, i, s') && OverwriteOk(w, i, s')
    ensures Kept(w, w')
  {
    FittingKeepsSteps(w.plan.steps, i, s');
    MovesExactly(w.plan, w'.plan, i, s');
    forall d | d in w'.drivers ensures LeaseHeld(w', d) {
      assert LeaseHeld(w, d);
    }
  }

  lemma {:induction false} KeptOverwrites(w: World, w': World, id: string, i: nat, s': Step)
    requires Core(w) && Overwrites(w, w', id, i, s') && Kept(w, w') && s' != w.plan.steps[i]
    ensures OverwriteOk(w, i, s')
  {
    assert w'.plan.steps[i] == s';
    MovesExactly(w.plan, w'.plan, i, s');
    KeptStepsFit(w.plan.steps, i, s');
    forall d | d in w.drivers && Owns(w.plan, d) ensures Fresh(w'.plan, w.drivers[d].pc) {
      assert w'.drivers[d] == w.drivers[d];
    }
  }

  lemma {:induction false} OverwriteExactly(w: World, w': World, id: string, i: nat, s': Step)
    requires Core(w) && Overwrites(w, w', id, i, s')
    ensures Kept(w, w') <==> s' == w.plan.steps[i] || OverwriteOk(w, i, s')
  {
    if s' == w.plan.steps[i] {
      UnchangedKept(w, w', id, i);
    } else if Kept(w, w') {
      KeptOverwrites(w, w', id, i, s');
    } else if OverwriteOk(w, i, s') {
      OverwriteKept(w, w', id, i, s');
    }
  }

  // ----- A mutation that stops the plan -----

  /** The plan is stopped and the driver returns. */
  ghost predicate Stops(w: World, w': World, id: string) {
    && id in w.drivers && !Owns(w.plan, id) && w'.now == w.now && w'.drivers == w.drivers - {id}
    && IsAwaiting(w'.plan.status)
  }

  lemma {:induction false} StoppedLeases(w: World, w': World, id: string)
    requires Core(w) && Stops(w, w', id)
    ensures (forall d | d in w'.drivers :: LeaseHeld(w', d)) <==> NobodyTimely(w)
  {
    forall d | d in w'.drivers ensures LeaseHeld(w', d) <==> !Timely(w, d) {
      assert LeaseHeld(w, d);
    }
    assert LeaseHeld(w, id);
  }

  lemma {:induction false} StopExactly(w: World, w': World, id: string)
    requires Core(w) && Stops(w, w', id)
    ensures Kept(w, w') <==>
      !IsFinal(w.plan.status) && NobodyTimely(w) && PlanOk(w'.plan) && Progress(w.plan, w'.plan)
  {
    StoppedLeases(w, w', id);
  }

  // ----- Starting a step -----

  ghost predicate StartedAs(s: Step, s': Step) {
    s' == s.(status := Running, attempts := s.attempts + 1, runId := s'.runId, startedHead := s'.startedHead)
  }

  ghost predicate StartDocumented(s': Step) {
    (s'.action == Command ==> s'.runId.Some?) && (s'.action == GitCommit ==> s'.startedHead.Some?)
  }

  lemma {:induction false} StartableOverwrites(w: World, i: nat, s': Step)
    requires Core(w) && i < |w.plan.steps| && StartedAs(w.plan.steps[i], s')
    requires Startable(w, i) && StartDocumented(s')
    ensures OverwriteOk(w, i, s')
  {
    assert StepOk(w.plan.steps[i]) && DepsOk(w.plan.steps, i);
    var q := SetStep(w.plan, i, s');
    assert StatusOk(q) by {
      assert !Resumable(q);
    }
  }

  lemma {:induction false} BusyOwnerForbidsStart(w: World, i: nat, s': Step, d: string)
    requires Core(w) && i < |w.plan.steps| && StartedAs(w.plan.steps[i], s') && OverwriteOk(w, i, s')
    requires d in w.drivers && Owns(w.plan, d)
    ensures AtHead(w.drivers[d].pc)
  {
    var q, pc := SetStep(w.plan, i, s'), w.drivers[d].pc;
    OwnerFresh(w, d);
    assert Fresh(q, pc);
    assert q.steps[i] == s' && s' != w.plan.steps[i];
  }

  lemma {:induction false} OverwritesStartable(w: World, i: nat, s': Step)
    requires Core(w) && i < |w.plan.steps| && StartedAs(w.plan.steps[i], s') && OverwriteOk(w, i, s')
    ensures Startable(w, i) && StartDocumented(s')
  {
    var p, q := w.plan, SetStep(w.plan, i, s');
    forall d | d in w.drivers && Owns(p, d) ensures AtHead(w.drivers[d].pc) {
      BusyOwnerForbidsStart(w, i, s', d);
    }
    assert q.steps[i].status == Running;
  }

  lemma {:induction false} StartExactly(w: World, w': World, id: string, i: nat, s': Step)
    requires Core(w) && Overwrites(w, w', id, i, s') && StartedAs(w.plan.steps[i], s')
    ensures Kept(w, w') <==> Startable(w, i) && StartDocumented(s')
  {
    OverwriteExactly(w, w', id, i, s');
    if OverwriteOk(w, i, s') {
      OverwritesStartable(w, i, s');
    } else if Startable(w, i) && StartDocumented(s') {
      StartableOverwrites(w, i, s');
    }
  }

  // ----- Passing a step -----

  ghost predicate PassedFrom(s: Step, s': Step) {
    s' == s.(status := Passed, exitCode := s'.exitCode)
  }

  lemma {:induction false} OwnersStayFresh(w: World, i: nat, s': Step)
    requires Core(w) && i < |w.plan.steps| && OwnerSpares(w, i) && SameSpec(w.plan.steps[i], s')
    requires s'.status == Passed || (s'.status == Pending && w.plan.steps[i].status == Running)
    ensures OwnersFresh(w, SetStep(w.plan, i, s'))
  {
    var q := SetStep(w.plan, i, s');
    forall d | d in w.drivers && Owns(w.plan, d) ensures Fresh(q, w.drivers[d].pc) {
      OwnerFresh(w, d);
      var pc := w.drivers[d].pc;
      if !AtHead(pc) {
        assert ChosenAs(w.plan, pc.i, pc.step);
        forall e | e in pc.step.deps ensures PassedId(q.steps, e) {
          PassedIdKept(w.plan.steps, i, s', e);
        }
        assert ChosenAs(q, pc.i, pc.step);
      }
    }
  }

  /** An owner at work on the step would find it changed. */
  lemma {:induction false} OwnersMustSpare(w: World, i: nat, s': Step)
    requires Core(w) && i < |w.plan.steps| && s' != w.plan.steps[i] && OwnersFresh(w, SetStep(w.plan, i, s'))
    ensures OwnerSpares(w, i)
  {
    forall d | d in w.drivers && Owns(w.plan, d) ensures AtHead(w.drivers[d].pc) || w.drivers[d].pc.i != i {
      OwnerFresh(w, d);
      assert Fresh(SetStep(w.plan, i, s'), w.drivers[d].pc);
    }
  }

  lemma {:induction false} StoppedElsewhere(p: Plan, i: nat, s': Step)
    requires PlanOk(p) && Resumable(p) && i < |p.steps| && PassedFrom(p.steps[i], s')
    requires p.steps[i].status != Passed
    ensures Resumable(SetStep(p, i, s'))
    ensures (exists k: nat :: StoppedAt(SetStep(p, i, s'), k)) <==>
      p.blocker.Some? && p.blocker.value.stepId != Some(p.steps[i].id)
  {
    var q := SetStep(p, i, s');
    var k: nat :| StoppedAt(p, k);
    if k == i {
      forall m: nat ensures !StoppedAt(q, m) {
        if m < |p.steps| && m != i {
          assert GraphOf(p.steps)[m].id != GraphOf(p.steps)[i].id;
        }
      }
    } else {
      forall d | d in p.steps[k].deps ensures PassedId(q.steps, d) {
        PassedIdKept(p.steps, i, s', d);
      }
      assert StoppedAt(q, k);
      assert GraphOf(p.steps)[k].id != GraphOf(p.steps)[i].id;
    }
  }

  lemma {:induction false} PassableOverwrites(w: World, i: nat, s': Step)
    requires Core(w) && i < |w.plan.steps| && PassedFrom(w.plan.steps[i], s') && Passable(w, i)
    ensures OverwriteOk(w, i, s')
  {
    assert StepOk(w.plan.steps[i]) && DepsOk(w.plan.steps, i);
    OwnersStayFresh(w, i, s');
    if Resumable(w.plan) {
      StoppedElsewhere(w.plan, i, s');
    }
  }

  lemma {:induction false} OverwritesPassable(w: World, i: nat, s': Step)
    requires Core(w) && i < |w.plan.steps| && PassedFrom(w.plan.steps[i], s') && OverwriteOk(w, i, s')
    ensures Passable(w, i)
  {
    OwnersMustSpare(w, i, s');
    if Resumable(w.plan) {
      StoppedElsewhere(w.plan, i, s');
    }
  }

  lemma {:induction false} PassExactly(w: World, w': World, id: string, i: nat, s': Step)
    requires Core(w) && Overwrites(w, w', id, i, s') && PassedFrom(w.plan.steps[i], s')
    ensures Kept(w, w') <==> Passable(w, i) || s' == w.plan.steps[i]
  {
    OverwriteExactly(w, w', id, i, s');
    if OverwriteOk(w, i, s') {
      OverwritesPassable(w, i, s');
    } else if Passable(w, i) {
      PassableOverwrites(w, i, s');
    }
  }

  // ----- Retrying a step -----

  ghost predicate RetriedFrom(s: Step, s': Step) {
    s' == s.(status := Pending, runId := None, exitCode := s'.exitCode)
  }

  ghost predicate Retryable(w: World, i: nat)
    requires i < |w.plan.steps|
  {
    var s := w.plan.steps[i];
    s.status == Running && s.attempts < s.maxAttempts && OwnerSpares(w, i)
  }

  lemma {:induction false} RetryableOverwrites(w: World, i: nat, s': Step)
    requires Core(w) && i < |w.plan.steps| && RetriedFrom(w.plan.steps[i], s') && Retryable(w, i)
    ensures OverwriteOk(w, i, s')
  {
    assert StepOk(w.plan.steps[i]);
    OwnersStayFresh(w, i, s');
  }

  lemma {:induction false} OverwritesRetryable(w: World, i: nat, s': Step)
    requires Core(w) && i < |w.plan.steps| && RetriedFrom(w.plan.steps[i], s') && OverwriteOk(w, i, s')
    ensures Retryable(w, i)
  {
    OwnersMustSpare(w, i, s');
  }

  lemma {:induction false} RetryExactly(w: World, w': World, id: string, i: nat, s': Step)
    requires Core(w) && Overwrites(w, w', id, i, s') && RetriedFrom(w.plan.steps[i], s')
    ensures Kept(w, w') <==> Retryable(w, i) || s' == w.plan.steps[i]
  {
    OverwriteExactly(w, w', id, i, s');
    if OverwriteOk(w, i, s') {
      OverwritesRetryable(w, i, s');
    } else if Retryable(w, i) {
      RetryableOverwrites(w, i, s');
    }
  }

  // ----- Stopping the plan -----

  lemma {:induction false} FailExactly(w: World, w': World, id: string, i: nat, s': Step)
    requires Core(w) && Stops(w, w', id) && i < |w.plan.steps|
    requires SameSpec(w.plan.steps[i], s') && IsTerminalStep(s'.status) && s'.status != Passed
    requires s' == w.plan.steps[i].(status := s'.status, exitCode := s'.exitCode)
    requires w'.plan.steps == w.plan.steps[i := s'] && w'.plan.status == AwaitingAssistant
    requires w'.plan.blocker.Some?
    requires w'.plan.blocker.value.code == StepFailed || w'.plan.blocker.value.code == ActionFailed
    ensures Kept(w, w') <==> Stoppable(w, i, s')
  {
    var p, q := w.plan, w'.plan;
    StopExactly(w, w', id);
    MovesExactly(p, q, i, s');
    assert StepOk(p.steps[i]) && DepsOk(p.steps, i);
    assert StatusOk(q);
    if p.steps[i].status != Passed {
      if PlanOk(q) {
        KeptStepsFit(p.steps, i, s');
      } else if Stoppable(w, i, s') {
        FittingKeepsSteps(p.steps, i, s');
      }
    }
  }

  lemma {:induction false} ApprovalExactly(w: World, w': World, id: string, step: Step, user: bool)
    requires Core(w) && Stops(w, w', id) && w'.plan == ApprovalNeeded(w.plan, step, user)
    ensures Kept(w, w') <==> Approvable(w, step.id)
  {
    var q := w'.plan;
    StopExactly(w, w', id);
    assert Progress(w.plan, q);
    if PlanOk(q) {
      var k: nat :| StoppedAt(q, k);
      FindsItself(w.plan.steps, k);
    } else if Approvable(w, step.id) {
      assert StoppedAt(q, FindStep(w.plan.steps, step.id));
    }
  }

  // ----- Every mutation -----

  lemma {:induction false} LateStart(w: World, id: string, s: StartEvent)
    requires Core(w) && id in w.drivers && !Owns(w.plan, id) && StartEnabled(w, id, s) && Mutates(OnStart(s))
    ensures Kept(w, AfterStart(w, id, s)) <==> OrderlyStart(w, w.drivers[id].pc, s)
  {
    var w', pc := AfterStart(w, id, s), w.drivers[id].pc;
    if s.NeedApproval? {
      ApprovalExactly(w, w', id, pc.step, s.user);
    } else {
      StartExactly(w, w', id, pc.i, w'.plan.steps[pc.i]);
    }
  }

  ghost predicate LateSettles(w: World, id: string) {
    Core(w) && id in w.drivers && !Owns(w.plan, id) && RunEnabled(w, id, SettleRunEnd)
  }

  lemma {:induction false} LateSuccess(w: World, id: string)
    requires LateSettles(w, id) && Succeeded(w.drivers[id].pc.step, w.drivers[id].pc.t)
    ensures Kept(w, Settled(w, id)) <==> OrderlySettlement(w, w.drivers[id].pc)
  {
    var i := w.drivers[id].pc.i;
    PassExactly(w, Settled(w, id), id, i, Settled(w, id).plan.steps[i]);
  }

  lemma {:induction false} LateRetry(w: World, id: string)
    requires LateSettles(w, id) && !Succeeded(w.drivers[id].pc.step, w.drivers[id].pc.t)
    requires w.drivers[id].pc.step.attempts < w.drivers[id].pc.step.maxAttempts
    ensures Kept(w, Settled(w, id)) <==> OrderlySettlement(w, w.drivers[id].pc)
  {
    var i := w.drivers[id].pc.i;
    RetryExactly(w, Settled(w, id), id, i, Settled(w, id).plan.steps[i]);
  }

  lemma {:induction false} LateSettlement(w: World, id: string)
    requires LateSettles(w, id)
    ensures Kept(w, Settled(w, id)) <==> OrderlySettlement(w, w.drivers[id].pc)
  {
    var pc := w.drivers[id].pc;
    if Succeeded(pc.step, pc.t) {
      LateSuccess(w, id);
    } else if pc.step.attempts < pc.step.maxAttempts {
      LateRetry(w, id);
    } else {
      FailExactly(w, Settled(w, id), id, pc.i, Settled(w, id).plan.steps[pc.i]);
    }
  }

  lemma {:induction false} LateHeadRead(w: World, id: string)
    requires Core(w) && id in w.drivers && !Owns(w.plan, id) && ActionEnabled(w, id, ReadHead)
    ensures Kept(w, HeadRead(w, id)) <==> OrderlyAction(w, w.drivers[id].pc, ReadHead)
  {
    var w', pc := HeadRead(w, id), w.drivers[id].pc;
    if pc.step.status == Pending {
      StartExactly(w, w', id, pc.i, w'.plan.steps[pc.i]);
    } else {
      GotoCore(w, id, Diffing(pc.i, pc.step, w.head));
    }
  }

  lemma {:induction false} LateActionSettlement(w: World, id: string, ok: bool)
    requires Core(w) && id in w.drivers && !Owns(w.plan, id) && ActionEnabled(w, id, SettleActionEnd(ok))
    ensures Kept(w, ActionSettled(w, id, ok)) <==> OrderlyAction(w, w.drivers[id].pc, SettleActionEnd(ok))
  {
    var w', pc := ActionSettled(w, id, ok), w.drivers[id].pc;
    var s' := w'.plan.steps[pc.i];
    if ok {
      PassExactly(w, w', id, pc.i, s');
    } else {
      FailExactly(w, w', id, pc.i, s');
    }
  }

  lemma {:induction false} LateFailure(w: World, id: string)
    requires Core(w) && id in w.drivers && !Owns(w.plan, id)
    ensures Kept(w, AfterDriver(w, id, FailDriver)) <==> Orderly(w, id, FailDriver)
  {
    if w.plan.status == Active {
      DriverFailureOk(w.plan);
      StopExactly(w, AfterDriver(w, id, FailDriver), id);
    } else {
      DropCore(w, id);
    }
  }

  ghost predicate Late(w: World, id: string, d: DriverEvent) {
    id in w.drivers && !Owns(w.plan, id) && DriverEnabled(w, id, d) && Mutates(d)
  }

  lemma {:induction false} OrderKeptExactly(w: World, id: string, d: DriverEvent)
    requires Core(w) && Late(w, id, d)
    ensures Kept(w, AfterDriver(w, id, d)) <==> Orderly(w, id, d)
  {
    match d {
      case FailDriver => LateFailure(w, id);
      case OnStart(s) => LateStart(w, id, s);
      case OnRun(_) => LateSettlement(w, id);
      case OnAction(ReadHead) => LateHeadRead(w, id);
      case OnAction(MakeCommit(sha)) => CommittedCore(w, id, sha);
      case OnAction(SettleActionEnd(ok)) => LateActionSettlement(w, id, ok);
      case _ =>
    }
  }

  // ----- The commits -----

  /** A commit step may pass: it has made its one commit, on the head it started from. */
  ghost predicate CommitMade(w: World, i: nat)
    requires i < |w.plan.steps|
  {
    var s := w.plan.steps[i];
    s.action == GitCommit && s.status != Passed ==> OneCommitOn(w.commits, i, s.startedHead)
  }

  /** A commit step may start over: it has made no commit yet. */
  ghost predicate NoCommitYet(w: World, i: nat)
    requires i < |w.plan.steps|
  {
    w.plan.steps[i].action == GitCommit ==> CommitsOf(w.commits, i) == []
  }

  /** A driver at work on step `i` may commit what is in the worktree: no other commit step is under
      way, this one has neither made its commit nor still to record its head, and no owner has just
      read the head. */
  ghost predicate MayCommit(w: World, i: nat) {
    && (forall k | 0 <= k < |w.plan.steps| && w.plan.steps[k].action == GitCommit ::
          if k == i then w.plan.steps[k].status != Pending && w.plan.steps[k].status != Passed
          else w.plan.steps[k].status != Running)
    && (forall d | d in w.drivers && Owns(w.plan, d) :: !w.drivers[d].pc.Diffing?)
  }

  /** The change leaves every commit step with the commits it should have. */
  ghost predicate KeepsCommits(w: World, id: string, d: DriverEvent)
    requires id in w.drivers && DriverEnabled(w, id, d)
  {
    var pc := w.drivers[id].pc;
    match d
    case OnStart(SaveStart) =>
      w.plan.steps[pc.i].action == GitCommit && w.plan.steps[pc.i].status == Pending ==>
        w.plan.steps[pc.i].startedHead == Some(w.head)
    case OnRun(SettleRunEnd) =>
      if Succeeded(pc.step, pc.t) then CommitMade(w, pc.i)
      else pc.step.attempts < pc.step.maxAttempts ==> NoCommitYet(w, pc.i)
    case OnAction(ReadHead) => pc.step.status == Pending ==> NoCommitYet(w, pc.i)
    case OnAction(MakeCommit(_)) => w.dirty ==> MayCommit(w, pc.i)
    case OnAction(SettleActionEnd(ok)) => ok ==> CommitMade(w, pc.i)
    case _ => true
  }

  /** No harm: order and commits are kept. */
  ghost predicate Harmless(w: World, id: string, d: DriverEvent)
    requires id in w.drivers && DriverEnabled(w, id, d)
  {
    Orderly(w, id, d) && KeepsCommits(w, id, d)
  }

  /** One step is overwritten, and the worktree left alone. */
  lemma {:induction false} OverwriteCommits(w: World, w': World, id: string, i: nat, s': Step)
    requires Commits(w) && Overwrites(w, w', id, i, s')
    requires w'.head == w.head && w'.dirty == w.dirty && w'.commits == w.commits
    ensures Commits(w') <==> CommitStepOk(w', i)
  {
    forall k | 0 <= k < |w'.plan.steps| && k != i ensures CommitStepOk(w', k) {
      assert CommitStepOk(w, k);
    }
    forall d | d in w'.drivers && Owns(w'.plan, d) ensures CommitPc(w', w'.drivers[d].pc) {
      assert d != id && CommitPc(w, w.drivers[d].pc);
    }
  }

  lemma {:induction false} StopCommits(w: World, w': World, id: string)
    requires Commits(w) && Stops(w, w', id) && CommitStepsLeft(w.plan.steps, w'.plan.steps)
    requires forall i | 0 <= i < |w.plan.steps| :: w'.plan.steps[i].action == w.plan.steps[i].action
    requires w'.head == w.head && w'.dirty == w.dirty && w'.commits == w.commits
    ensures Commits(w')
  {
    CommitsFrame(w, w');
  }

  lemma {:induction false} StartCommitsExactly(w: World, id: string)
    requires Good(w) && Late(w, id, OnStart(SaveStart)) && Orderly(w, id, OnStart(SaveStart))
    ensures Commits(AfterStart(w, id, SaveStart)) <==> KeepsCommits(w, id, OnStart(SaveStart))
  {
    var w', i := AfterStart(w, id, SaveStart), w.drivers[id].pc.i;
    OverwriteCommits(w, w', id, i, w'.plan.steps[i]);
    assert CommitStepOk(w, i);
  }

  lemma {:induction false} BegunCommits(w: World, w': World, id: string, i: nat, s': Step)
    requires Commits(w) && Overwrites(w, w', id, i, s') && s'.status == Running && s'.startedHead == Some(w.head)
    requires w'.head == w.head && w'.dirty == w.dirty && w'.commits == w.commits
    ensures Commits(w') <==> NoCommitYet(w, i)
  {
    OverwriteCommits(w, w', id, i, s');
  }

  lemma {:induction false} LateBegunCommits(w: World, id: string)
    requires Commits(w) && Late(w, id, OnAction(ReadHead)) && w.drivers[id].pc.step.status == Pending
    ensures Commits(HeadRead(w, id)) <==> NoCommitYet(w, w.drivers[id].pc.i)
  {
    var i := w.drivers[id].pc.i;
    BegunCommits(w, HeadRead(w, id), id, i, HeadRead(w, id).plan.steps[i]);
  }

  lemma {:induction false} HeadCommitsExactly(w: World, id: string)
    requires Commits(w) && Late(w, id, OnAction(ReadHead))
    ensures Commits(HeadRead(w, id)) <==> KeepsCommits(w, id, OnAction(ReadHead))
  {
    if w.drivers[id].pc.step.status == Pending {
      LateBegunCommits(w, id);
    } else {
      CommitsFrame(w, HeadRead(w, id));
    }
  }

  lemma {:induction false} PassedCommits(w: World, w': World, id: string, i: nat, s': Step)
    requires Commits(w) && Overwrites(w, w', id, i, s') && PassedFrom(w.plan.steps[i], s')
    requires w'.head == w.head && w'.dirty == w.dirty && w'.commits == w.commits
    ensures Commits(w') <==> CommitMade(w, i)
  {
    OverwriteCommits(w, w', id, i, s');
    assert CommitStepOk(w, i);
  }

  lemma {:induction false} RetriedCommits(w: World, w': World, id: string, i: nat, s': Step)
    requires Commits(w) && Overwrites(w, w', id, i, s') && RetriedFrom(w.plan.steps[i], s')
    requires w'.head == w.head && w'.dirty == w.dirty && w'.commits == w.commits
    ensures Commits(w') <==> NoCommitYet(w, i)
  {
    OverwriteCommits(w, w', id, i, s');
    assert CommitStepOk(w, i);
  }

  lemma {:induction false} SuccessCommits(w: World, id: string)
    requires LateSettles(w, id) && Commits(w) && Succeeded(w.drivers[id].pc.step, w.drivers[id].pc.t)
    ensures Commits(Settled(w, id)) <==> CommitMade(w, w.drivers[id].pc.i)
  {
    var i := w.drivers[id].pc.i;
    PassedCommits(w, Settled(w, id), id, i, Settled(w, id).plan.steps[i]);
  }

  lemma {:induction false} RetryCommits(w: World, id: string)
    requires LateSettles(w, id) && Commits(w) && !Succeeded(w.drivers[id].pc.step, w.drivers[id].pc.t)
    requires w.drivers[id].pc.step.attempts < w.drivers[id].pc.step.maxAttempts
    ensures Commits(Settled(w, id)) <==> NoCommitYet(w, w.drivers[id].pc.i)
  {
    var i := w.drivers[id].pc.i;
    RetriedCommits(w, Settled(w, id), id, i, Settled(w, id).plan.steps[i]);
  }

  lemma {:induction false} FailureCommits(w: World, id: string)
    requires LateSettles(w, id) && Commits(w) && !Succeeded(w.drivers[id].pc.step, w.drivers[id].pc.t)
    requires w.drivers[id].pc.step.attempts >= w.drivers[id].pc.step.maxAttempts
    ensures Commits(Settled(w, id))
  {
    StopCommits(w, Settled(w, id), id);
  }

  lemma {:induction false} SettledCommitsExactly(w: World, id: string)
    requires LateSettles(w, id) && Commits(w)
    ensures Commits(Settled(w, id)) <==> KeepsCommits(w, id, OnRun(SettleRunEnd))
  {
    var pc := w.drivers[id].pc;
    if Succeeded(pc.step, pc.t) {
      SuccessCommits(w, id);
    } else if pc.step.attempts < pc.step.maxAttempts {
      RetryCommits(w, id);
    } else {
      FailureCommits(w, id);
    }
  }

  lemma {:induction false} ActionCommitsExactly(w: World, id: string, ok: bool)
    requires Commits(w) && Late(w, id, OnAction(SettleActionEnd(ok)))
    ensures Commits(ActionSettled(w, id, ok)) <==> KeepsCommits(w, id, OnAction(SettleActionEnd(ok)))
  {
    var w', pc := ActionSettled(w, id, ok), w.drivers[id].pc;
    if ok {
      PassedCommits(w, w', id, pc.i, w'.plan.steps[pc.i]);
    } else {
      StopCommits(w, w', id);
    }
  }

  lemma {:induction false} CommitsKept(w: World, id: string, sha: string, k: nat)
    requires Commits(w) && w.dirty && sha != w.head && k < |w.plan.steps|
    requires id in w.drivers && w.drivers[id].pc.Diffing?
    ensures
      var s := w.plan.steps[k];
      CommitStepOk(Committed(w, id, sha), k) <==>
        (s.action == GitCommit ==>
           if k == w.drivers[id].pc.i then s.status != Pending && s.status != Passed else s.status != Running)
  {
    CommitsOfAppend(w.commits, Commit(w.drivers[id].pc.i, w.head, sha), k);
    assert CommitStepOk(w, k);
  }

  lemma {:induction false} OwnersAfterCommit(w: World, id: string, sha: string, d: string)
    requires Good(w) && w.dirty && Late(w, id, OnAction(MakeCommit(sha))) && d in w.drivers && Owns(w.plan, d)
    ensures CommitPc(Committed(w, id, sha), w.drivers[d].pc) <==> !w.drivers[d].pc.Diffing?
  {
    var pc := w.drivers[d].pc;
    OwnerFresh(w, d);
    assert CommitPc(w, pc);
    if pc.Acted? && pc.step.action == GitCommit {
      assert CommitStepOk(w, pc.i);
    }
  }

  lemma {:induction false} MakeCommitExactly(w: World, id: string, sha: string)
    requires Good(w) && Late(w, id, OnAction(MakeCommit(sha)))
    ensures Commits(Committed(w, id, sha)) <==> KeepsCommits(w, id, OnAction(MakeCommit(sha)))
  {
    var w' := Committed(w, id, sha);
    if w.dirty {
      forall k | 0 <= k < |w.plan.steps| ensures CommitStepOk(w', k) <==> (w.plan.steps[k].action == GitCommit ==>
        if k == w.drivers[id].pc.i then w.plan.steps[k].status != Pending && w.plan.steps[k].status != Passed
        else w.plan.steps[k].status != Running)
      {
        CommitsKept(w, id, sha, k);
      }
      forall d | d in w.drivers && Owns(w.plan, d)
        ensures d != id && (CommitPc(w', w.drivers[d].pc) <==> !w.drivers[d].pc.Diffing?)
      {
        OwnersAfterCommit(w, id, sha, d);
      }
    } else {
      CommitsFrame(w, w');
    }
  }

  lemma {:induction false} CommitsKeptExactly(w: World, id: string, d: DriverEvent)
    requires Good(w) && Late(w, id, d) && Orderly(w, id, d)
    ensures Commits(AfterDriver(w, id, d)) <==> KeepsCommits(w, id, d)
  {
    match d {
      case FailDriver => CommitsFrame(w, AfterDriver(w, id, d));
      case OnStart(NeedApproval(_)) => CommitsFrame(w, AfterDriver(w, id, d));
      case OnStart(SaveStart) => StartCommitsExactly(w, id);
      case OnRun(_) => SettledCommitsExactly(w, id);
      case OnAction(ReadHead) => HeadCommitsExactly(w, id);
      case OnAction(MakeCommit(sha)) => MakeCommitExactly(w, id, sha);
      case OnAction(SettleActionEnd(ok)) => ActionCommitsExactly(w, id, ok);
      case _ =>
    }
  }

  /** Nothing is claimed or spawned, the other drivers stay, and the late one is not inside a start. */
  ghost predicate StartsNothing(w: World, w': World, id: string) {
    && w'.ops == w.ops && w'.children == w.children
    && (forall d | d in w'.drivers && d != id :: d in w.drivers && w'.drivers[d].pc == w.drivers[d].pc)
    && (id in w'.drivers ==>
          var pc := w'.drivers[id].pc; AtHead(pc) || pc.Polling? || pc.Diffing? || pc.Acted?)
  }

  lemma {:induction false} LateStartStartsNothing(w: World, id: string, s: StartEvent)
    requires Late(w, id, OnStart(s))
    ensures StartsNothing(w, AfterStart(w, id, s), id)
  {
  }

  lemma {:induction false} LateRunStartsNothing(w: World, id: string, r: RunEvent)
    requires Late(w, id, OnRun(r))
    ensures StartsNothing(w, AfterRun(w, id, r), id)
  {
  }

  lemma {:induction false} LateActionStartsNothing(w: World, id: string, a: ActionEvent)
    requires Late(w, id, OnAction(a))
    ensures StartsNothing(w, AfterAction(w, id, a), id)
  {
    match a {
      case ReadHead => assert StartsNothing(w, HeadRead(w, id), id);
      case MakeCommit(sha) => assert StartsNothing(w, Committed(w, id, sha), id);
      case SettleActionEnd(ok) => assert StartsNothing(w, ActionSettled(w, id, ok), id);
    }
  }

  lemma {:induction false} StartsKept(w: World, w': World, id: string)
    requires Starts(w) && StartsNothing(w, w', id) && Advances(w.plan.steps, w'.plan.steps)
    ensures Starts(w')
  {
    StartsFrame(w, w', id);
  }

  lemma {:induction false} LateStartsKept(w: World, id: string, d: DriverEvent)
    requires Good(w) && Late(w, id, d) && Kept(w, AfterDriver(w, id, d))
    ensures Starts(AfterDriver(w, id, d))
  {
    match d {
      case OnStart(s) => LateStartStartsNothing(w, id, s);
      case OnRun(r) => LateRunStartsNothing(w, id, r);
      case OnAction(a) => LateActionStartsNothing(w, id, a);
      case _ =>
    }
    StartsKept(w, AfterDriver(w, id, d), id);
  }

  /** For every change by a driver that no longer owns the plan: everything that runs keep (plan, leases,
      snapshots, children, commits) is kept, no step is undone and a final plan stays, exactly if it is harmless. */
  lemma {:induction false} HarmlessExactly(w: World, id: string, d: DriverEvent)
    requires Good(w) && Late(w, id, d)
    ensures Kept(w, AfterDriver(w, id, d)) && Good(AfterDriver(w, id, d)) <==> Harmless(w, id, d)
  {
    OrderKeptExactly(w, id, d);
    if Orderly(w, id, d) {
      CommitsKeptExactly(w, id, d);
      LateStartsKept(w, id, d);
    }
  }
}
