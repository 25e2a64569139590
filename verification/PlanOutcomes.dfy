/** What it takes, over whole runs, for a step or a plan to end as it does. */
module PlanOutcomes {
  import opened Base
  import opened PlanInvariants
  import opened PlanModel
  import opened PlanRuns
  import opened PlanSafety

  // ----- What every run keeps -----

  /** A command has passed with an exit code it accepts and failed only after its last attempt;
      a finishing step has passed only once the Task was finished. */
  ghost predicate EndedRightly(s: Step, taskCompleted: bool) {
    && (s.action == Command && s.status == Passed ==> s.exitCode.Some? && s.exitCode.value in s.exitCodes)
    && (s.action == Command && (s.status == Failed || s.status == Interrupted) ==> s.attempts == s.maxAttempts)
    && (s.action == TaskFinish && s.status == Passed ==> taskCompleted)
  }

  ghost predicate ActedPc(w: World, pc: Pc) {
    pc.Acted? && pc.step.action == TaskFinish && pc.ok ==> w.taskCompleted
  }

  ghost predicate Outcomes(w: World) {
    && (forall i | 0 <= i < |w.plan.steps| :: EndedRightly(w.plan.steps[i], w.taskCompleted))
    && (w.plan.status == Completed ==> w.taskCompleted)
    && (forall d | d in w.drivers && Owns(w.plan, d) :: ActedPc(w, w.drivers[d].pc))
  }

  ghost predicate StepsEndRightly(p: Plan, q: Plan, taskCompleted: bool) {
    && |q.steps| == |p.steps|
    && forall i | 0 <= i < |p.steps| :: q.steps[i] == p.steps[i] || EndedRightly(q.steps[i], taskCompleted)
  }

  /** Steps that change end rightly, and an owner's point is an old one or in order. */
  lemma {:induction false} OutcomesFrame(w: World, w': World)
    requires Outcomes(w) && StepsEndRightly(w.plan, w'.plan, w'.taskCompleted)
    requires w.taskCompleted ==> w'.taskCompleted
    requires w'.plan.status == Completed ==> w.plan.status == Completed || w'.taskCompleted
    requires forall d | d in w'.drivers && Owns(w'.plan, d) ::
      (d in w.drivers && Owns(w.plan, d) && w'.drivers[d].pc == w.drivers[d].pc) || ActedPc(w', w'.drivers[d].pc)
    ensures Outcomes(w')
  {
    forall i | 0 <= i < |w'.plan.steps| ensures EndedRightly(w'.plan.steps[i], w'.taskCompleted) {
      assert EndedRightly(w.plan.steps[i], w.taskCompleted);
    }
    forall d | d in w'.drivers && Owns(w'.plan, d) ensures ActedPc(w', w'.drivers[d].pc) {
      if d in w.drivers && Owns(w.plan, d) && w'.drivers[d].pc == w.drivers[d].pc {
        assert ActedPc(w, w.drivers[d].pc);
      }
    }
  }

  lemma {:induction false} ResumeOutcomes(w: World, id: string, q: Plan, next: Next)
    requires Outcomes(w) && id in w.drivers && Owns(w.plan, id) && StepsEndRightly(w.plan, q, w.taskCompleted)
    requires next.Start? || next.Poll? || next.Act? ==> next.i < |q.steps|
    requires next == Return ==> q.status != Active
    requires next != Return ==> q.driver == w.plan.driver
    requires q.status == Completed ==> w.taskCompleted
    ensures Outcomes(Resume(w, id, q, next))
  {
    OutcomesFrame(w, Resume(w, id, q, next));
  }

  lemma {:induction false} CancelEndsRightly(p: Plan, taskCompleted: bool)
    ensures StepsEndRightly(p, CancelPlan(p), taskCompleted)
  {
  }

  lemma {:induction false} BarrierEndsRightly(p: Plan, i: nat, taskCompleted: bool)
    requires i < |p.steps| && IsBarrier(p.steps[i].action)
    ensures StepsEndRightly(p, ReachBarrier(p, i), taskCompleted)
  {
  }

  lemma {:induction false} TurnEndsRightly(p: Plan, me: string, taskCompleted: bool)
    requires Owns(p, me)
    ensures var (q, _) := DriveOwned(p, taskCompleted);
      StepsEndRightly(p, q, taskCompleted) && (q.status == Completed ==> taskCompleted)
  {
    var i := NextStep(p.steps);
    if p.cancelRequested {
      CancelEndsRightly(p, taskCompleted);
    } else if i < |p.steps| && IsBarrier(p.steps[i].action) {
      BarrierEndsRightly(p, i, taskCompleted);
    }
  }

  lemma {:induction false} LoopOutcomes(w: World, id: string)
    requires Core(w) && Outcomes(w) && id in w.drivers
    ensures Outcomes(Looped(w, id))
  {
    if !Owns(w.plan, id) {
      OutcomesFrame(w, Drop(w, id));
    } else {
      var r := Renewed(w, id);
      RenewedCore(w, id);
      OutcomesFrame(w, r);
      DriveOwnedOk(r.plan, id, w.taskCompleted);
      DriveKeepsLease(r.plan, w.taskCompleted);
      TurnEndsRightly(r.plan, id, w.taskCompleted);
      var (q, next) := DriveOwned(r.plan, w.taskCompleted);
      ResumeOutcomes(r, id, q, next);
    }
  }

  lemma {:induction false} StartOutcomes(w: World, id: string, s: StartEvent)
    requires Core(w) && Outcomes(w) && id in w.drivers && StartEnabled(w, id, s) && Guarded(w, id, OnStart(s))
    ensures Outcomes(AfterStart(w, id, s))
  {
    var pc := w.drivers[id].pc;
    match s {
      case NeedApproval(user) => ResumeOutcomes(w, id, ApprovalNeeded(w.plan, pc.step, user), Return);
      case SaveStart => ResumeOutcomes(w, id, RecordStart(w.plan, pc.i, pc.run), Poll(pc.i));
      case _ => OutcomesFrame(w, AfterStart(w, id, s));
    }
  }

  lemma {:induction false} RunEndsRightly(p: Plan, i: nat, t: Terminal)
    requires i < |p.steps| && StepOk(p.steps[i]) && p.steps[i].status == Running && p.steps[i].action == Command
    requires p.status == Active
    ensures var (q, next) := SettleRun(p, i, p.steps[i], t);
      StepsEndRightly(p, q, false) && q.status != Completed && (next != Return ==> q.driver == p.driver)
  {
  }

  lemma {:induction false} PollOutcomes(w: World, id: string)
    requires Outcomes(w) && id in w.drivers && w.drivers[id].pc.Polling?
    ensures Outcomes(Polled(w, id))
  {
    if w.plan.cancelRequested || !Owns(w.plan, id) {
      OutcomesFrame(w, Polled(w, id));
    } else {
      OutcomesFrame(w, Renewed(w, id));
      OutcomesFrame(Renewed(w, id), Polled(w, id));
    }
  }

  lemma {:induction false} SettledOutcomes(w: World, id: string)
    requires Core(w) && Outcomes(w) && id in w.drivers && RunEnabled(w, id, SettleRunEnd) && Owns(w.plan, id)
    ensures Outcomes(Settled(w, id))
  {
    var pc := w.drivers[id].pc;
    OwnerFresh(w, id);
    SettleRunOk(w.plan, pc.i, pc.t);
    assert StepOk(w.plan.steps[pc.i]);
    RunEndsRightly(w.plan, pc.i, pc.t);
    var (q, next) := SettleRun(w.plan, pc.i, pc.step, pc.t);
    ResumeOutcomes(w, id, q, next);
  }

  lemma {:induction false} RunOutcomes(w: World, id: string, r: RunEvent)
    requires Core(w) && Outcomes(w) && id in w.drivers && RunEnabled(w, id, r) && Guarded(w, id, OnRun(r))
    ensures Outcomes(AfterRun(w, id, r))
  {
    match r {
      case PollRun => PollOutcomes(w, id);
      case SettleRunEnd => SettledOutcomes(w, id);
      case _ => OutcomesFrame(w, AfterRun(w, id, r));
    }
  }

  lemma {:induction false} HeadReadOutcomes(w: World, id: string)
    requires Core(w) && Outcomes(w) && id in w.drivers && ActionEnabled(w, id, ReadHead)
    requires Guarded(w, id, OnAction(ReadHead))
    ensures Outcomes(HeadRead(w, id))
  {
    OwnerFresh(w, id);
    OutcomesFrame(w, HeadRead(w, id));
  }

  lemma {:induction false} CommittedOutcomes(w: World, id: string, sha: string)
    requires Core(w) && Outcomes(w) && id in w.drivers && ActionEnabled(w, id, MakeCommit(sha))
    requires Guarded(w, id, OnAction(MakeCommit(sha)))
    ensures Outcomes(Committed(w, id, sha))
  {
    OwnerFresh(w, id);
    OutcomesFrame(w, Committed(w, id, sha));
  }

  lemma {:induction false} ActionSettledOutcomes(w: World, id: string, ok: bool)
    requires Core(w) && Outcomes(w) && id in w.drivers && ActionEnabled(w, id, SettleActionEnd(ok))
    requires Owns(w.plan, id)
    ensures Outcomes(ActionSettled(w, id, ok))
  {
    var pc := w.drivers[id].pc;
    OwnerFresh(w, id);
    assert ActedPc(w, pc);
    var (q, next) := SettleAction(w.plan, pc.i, pc.step, ok);
    ResumeOutcomes(w, id, q, next);
  }

  lemma {:induction false} ActionOutcomes(w: World, id: string, a: ActionEvent)
    requires Core(w) && Outcomes(w) && id in w.drivers && ActionEnabled(w, id, a) && Guarded(w, id, OnAction(a))
    ensures Outcomes(AfterAction(w, id, a))
  {
    match a {
      case ReadHead => HeadReadOutcomes(w, id);
      case MakeCommit(sha) => CommittedOutcomes(w, id, sha);
      case FinishTask(ok) => OutcomesFrame(w, AfterAction(w, id, a));
      case SettleActionEnd(ok) => ActionSettledOutcomes(w, id, ok);
    }
  }

  lemma {:induction false} DriverOutcomes(w: World, id: string, d: DriverEvent)
    requires Core(w) && Outcomes(w) && id in w.drivers && DriverEnabled(w, id, d) && Guarded(w, id, d)
    ensures Outcomes(AfterDriver(w, id, d))
  {
    match d {
      case Crash => OutcomesFrame(w, Drop(w, id));
      case DriveLoop => LoopOutcomes(w, id);
      case FailDriver => ResumeOutcomes(w, id, DriverFailure(w.plan), Return);
      case OnStart(s) => StartOutcomes(w, id, s);
      case OnRun(r) => RunOutcomes(w, id, r);
      case OnAction(a) => ActionOutcomes(w, id, a);
    }
  }

  lemma {:induction false} ContinueOutcomes(w: World, id: string)
    requires Core(w) && Outcomes(w) && ContinueCall(w.plan, id).Ok?
    ensures Outcomes(w.(plan := ContinueCall(w.plan, id).value))
  {
    OutcomesFrame(w, w.(plan := ContinueCall(w.plan, id).value));
  }

  lemma {:induction false} StepKeepsOutcomes(w: World, e: Event)
    requires Core(w) && Outcomes(w) && Enabled(w, e)
    ensures Outcomes(Apply(w, e))
  {
    match e {
      case ByDriver(id, d) => DriverOutcomes(w, id, d);
      case Continue(stepId) => ContinueOutcomes(w, stepId);
      case _ => OutcomesFrame(w, Apply(w, e));
    }
  }

  lemma {:induction false} RunStepKeepsOutcomes(ws: seq<World>, es: seq<Event>, k: nat)
    requires IsRun(ws, es) && k < |es| && Outcomes(ws[k])
    ensures Outcomes(ws[k + 1])
  {
    RunGood(ws, es, k);
    assert StepsTo(ws[k], es[k], ws[k + 1]);
    StepKeepsOutcomes(ws[k], es[k]);
  }

  lemma {:induction false} InitOutcomes(w: World)
    requires Init(w)
    ensures Outcomes(w)
  {
  }

  lemma {:induction false} RunKeepsOutcomes(ws: seq<World>, es: seq<Event>, k: nat)
    requires IsRun(ws, es) && k < |ws|
    ensures Outcomes(ws[k])
  {
    if k == 0 {
      InitOutcomes(ws[0]);
    } else {
      RunKeepsOutcomes(ws, es, k - 1);
      RunStepKeepsOutcomes(ws, es, k - 1);
    }
  }

  // ----- Theorems -----

  /** In every run a command has passed only with an exit code the step accepts, and is failed or
      given up only after its last attempt; its task is finished when a finishing step has passed. */
  lemma {:induction false} StepsEndForAReason(ws: seq<World>, es: seq<Event>, k: nat, i: nat)
    requires IsRun(ws, es) && k < |ws| && i < |ws[k].plan.steps|
    ensures
      var s := ws[k].plan.steps[i];
      && (s.action == Command && s.status == Passed ==> s.exitCode.Some? && s.exitCode.value in s.exitCodes)
      && (s.action == Command && (s.status == Failed || s.status == Interrupted) ==> s.attempts == s.maxAttempts)
      && (s.action == TaskFinish && s.status == Passed ==> ws[k].taskCompleted)
  {
    RunKeepsOutcomes(ws, es, k);
    assert EndedRightly(ws[k].plan.steps[i], ws[k].taskCompleted);
  }

  /** A completed plan has a finished task. */
  lemma {:induction false} CompletedMeansFinished(ws: seq<World>, es: seq<Event>, k: nat)
    requires IsRun(ws, es) && k < |ws| && ws[k].plan.status == Completed
    ensures ws[k].taskCompleted && AllPassed(ws[k].plan.steps)
  {
    RunKeepsOutcomes(ws, es, k);
    RunGood(ws, es, k);
  }

  /** No barrier is passed. */
  ghost predicate BarriersStay(p: Plan, q: Plan) {
    && |q.steps| == |p.steps|
    && forall i | 0 <= i < |p.steps| && IsBarrier(p.steps[i].action) ::
         q.steps[i].status == p.steps[i].status || q.steps[i].status != Passed
  }

  lemma {:induction false} TurnPassesNoBarrier(p: Plan, taskCompleted: bool)
    ensures BarriersStay(p, DriveOwned(p, taskCompleted).0)
  {
    var i := NextStep(p.steps);
    assert |CancelPlan(p).steps| == |p.steps|;
  }

  lemma {:induction false} LoopPassesNoBarrier(w: World, id: string)
    requires id in w.drivers
    ensures BarriersStay(w.plan, Looped(w, id).plan)
  {
    if Owns(w.plan, id) {
      TurnPassesNoBarrier(Renewed(w, id).plan, w.taskCompleted);
    }
  }

  lemma {:induction false} StartPassesNoBarrier(w: World, id: string, s: StartEvent)
    requires id in w.drivers && StartEnabled(w, id, s)
    ensures BarriersStay(w.plan, AfterStart(w, id, s).plan)
  {
  }

  lemma {:induction false} RunPassesNoBarrier(w: World, id: string, r: RunEvent)
    requires Core(w) && id in w.drivers && RunEnabled(w, id, r) && Guarded(w, id, OnRun(r))
    ensures BarriersStay(w.plan, AfterRun(w, id, r).plan)
  {
    if r.SettleRunEnd? {
      OwnerFresh(w, id);
    }
  }

  lemma {:induction false} ActionPassesNoBarrier(w: World, id: string, a: ActionEvent)
    requires Core(w) && id in w.drivers && ActionEnabled(w, id, a) && Guarded(w, id, OnAction(a))
    ensures BarriersStay(w.plan, AfterAction(w, id, a).plan)
  {
    if a.SettleActionEnd? {
      OwnerFresh(w, id);
    }
  }

  lemma {:induction false} DriverPassesNoBarrier(w: World, id: string, d: DriverEvent)
    requires Core(w) && id in w.drivers && DriverEnabled(w, id, d) && Guarded(w, id, d)
    ensures BarriersStay(w.plan, AfterDriver(w, id, d).plan)
  {
    match d {
      case DriveLoop => LoopPassesNoBarrier(w, id);
      case OnStart(s) => StartPassesNoBarrier(w, id, s);
      case OnRun(r) => RunPassesNoBarrier(w, id, r);
      case OnAction(a) => ActionPassesNoBarrier(w, id, a);
      case _ =>
    }
  }

  /** A barrier is passed from waiting, by the call that names it. */
  ghost predicate OnlyByName(w: World, e: Event, w': World) {
    && |w'.plan.steps| == |w.plan.steps|
    && forall i | 0 <= i < |w.plan.steps| && IsBarrier(w.plan.steps[i].action) ::
         w.plan.steps[i].status != Passed && w'.plan.steps[i].status == Passed ==>
           w.plan.steps[i].status == Waiting && e == Continue(w.plan.steps[i].id)
  }

  lemma {:induction false} ContinuePassesByName(w: World, id: string)
    requires Core(w) && ContinueCall(w.plan, id).Ok?
    ensures OnlyByName(w, Continue(id), w.(plan := ContinueCall(w.plan, id).value))
  {
    var k: nat :| StoppedAt(w.plan, k);
    FindsItself(w.plan.steps, k);
  }

  /** In every run a barrier is passed only from waiting, and only by the call that names it. */
  lemma {:induction false} BarriersPassByName(ws: seq<World>, es: seq<Event>, k: nat)
    requires IsRun(ws, es) && k < |es|
    ensures OnlyByName(ws[k], es[k], ws[k + 1])
  {
    RunGood(ws, es, k);
    assert StepsTo(ws[k], es[k], ws[k + 1]);
    match es[k] {
      case ByDriver(id, d) => DriverPassesNoBarrier(ws[k], id, d);
      case Continue(id) => ContinuePassesByName(ws[k], id);
      case _ =>
    }
  }
}
