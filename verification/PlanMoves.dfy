/** What each event does to the world of a stored plan and its drivers, said in the terms of the laws of
    the plan's own operations. */
module PlanMoves {
  import opened Base
  import opened PlanModel
  import opened PlanRuns
  import L = PlanLaws

  /** Nothing but the plan and this driver changes: it is at `pc` now, last renewed when it was. */
  ghost predicate GoesTo(w: World, id: string, pc: Pc, renewedAt: Option<nat>, w': World) {
    && w' == w.(plan := w'.plan, drivers := w'.drivers)
    && w'.drivers == w.drivers[id := Driver(pc, renewedAt)]
  }

  /** Nothing but the plan changes, and this driver is gone. */
  ghost predicate Returns(w: World, id: string, w': World) {
    w' == w.(plan := w'.plan, drivers := w'.drivers) && w'.drivers == w.drivers - {id}
  }

  /** Where the driver waits, with its copy of the step, after a stretch that ends in `next`. */
  ghost predicate WaitsAt(steps: seq<Step>, next: Next, pc: Pc) {
    match next
    case Start(i) => i < |steps| && pc == Starting(i, steps[i])
    case Poll(i) => i < |steps| && pc == Polling(i, steps[i])
    case Act(i) => i < |steps| && pc == ReadingHead(i, steps[i])
    case RecordEvidence(_) => pc == SavingEvidence
    case Loop => pc == Top
    case Return => false
  }

  ghost predicate GoesOn(w: World, id: string, next: Next, renewedAt: Option<nat>, w': World) {
    if next == Return then Returns(w, id, w')
    else exists pc :: WaitsAt(w'.plan.steps, next, pc) && GoesTo(w, id, pc, renewedAt, w')
  }

  /** The loop: the driver's own turn, after which it has just renewed its lease. */
  ghost predicate Loops(w: World, id: string, w': World)
    requires id in w.drivers
  {
    exists next ::
      && L.Drives(w.plan, id, w.now, w.taskCompleted, w'.plan, next)
      && GoesOn(w, id, next, Some(w.now), w')
  }

  /** Starting a run: the key of the step's next attempt finds its run or takes one, which is spawned
      once and then recorded. */
  ghost predicate Starts(w: World, id: string, s: StartEvent, w': World)
    requires id in w.drivers && StartEnabled(w, id, s)
  {
    var Driver(pc, renewedAt) := w.drivers[id];
    var op := OpKey(pc.step.key, pc.step.attempts + 1);
    match s
    case Replay =>
      w'.plan == w.plan && op in w.ops && GoesTo(w, id, Launched(pc.i, pc.step, w.ops[op]), renewedAt, w')
    case NeedApproval(user) =>
      && Returns(w, id, w') && w'.plan.steps == w.plan.steps
      && L.StoppedFor(w.plan, if user then AwaitingUser else AwaitingApproval, ApprovalRequired, Some(pc.step.id),
                      w'.plan)
    case ClaimKey(run) =>
      && op !in w.ops && w'.ops == w.ops[op := run] && w'.plan == w.plan
      && GoesTo(w, id, Claimed(pc.i, pc.step, run), renewedAt, w'.(ops := w.ops))
    case Spawn =>
      && w'.children == w.children + [Child(op, pc.run)] && w'.plan == w.plan
      && GoesTo(w, id, Launched(pc.i, pc.step, pc.run), renewedAt, w'.(children := w.children))
    case SaveStart =>
      && pc.i < |w'.plan.steps| && L.Started(w.plan, pc.i, pc.run, w'.plan)
      && GoesTo(w, id, Polling(pc.i, w'.plan.steps[pc.i]), renewedAt, w')
  }

  /** Waiting for a run: a requested cancellation sends the driver back to the loop, a lost plan sends it
      home, and the end of the run settles the step. */
  ghost predicate Watches(w: World, id: string, r: RunEvent, w': World)
    requires id in w.drivers && RunEnabled(w, id, r)
  {
    var Driver(pc, renewedAt) := w.drivers[id];
    match r
    case PollRun =>
      if w.plan.cancelRequested then w'.plan == w.plan && GoesTo(w, id, Top, renewedAt, w')
      else if w.plan.status == Active && w.plan.driver == Some(id)
      then L.LeaseKept(w.plan, w.now, w'.plan) && GoesTo(w, id, AskingStatus(pc.i, pc.step), Some(w.now), w')
      else w'.plan == w.plan && Returns(w, id, w')
    case StillActive => w'.plan == w.plan && GoesTo(w, id, Polling(pc.i, pc.step), renewedAt, w')
    case RunEnded(t) => w'.plan == w.plan && GoesTo(w, id, Settling(pc.i, pc.step, t), renewedAt, w')
    case SettleRunEnd =>
      exists next :: L.RunSettled(w.plan, pc.i, pc.step, pc.t, w'.plan, next) && GoesOn(w, id, next, renewedAt, w')
    case SaveEvidence => w'.plan == w.plan && GoesTo(w, id, Top, renewedAt, w')
  }

  /** A commit step notes the head before it begins, commits what there is to commit, and has succeeded
      if it did or if the head has moved since it began. */
  ghost predicate Acts(w: World, id: string, a: ActionEvent, w': World)
    requires id in w.drivers && ActionEnabled(w, id, a)
  {
    var Driver(pc, renewedAt) := w.drivers[id];
    match a
    case ReadHead =>
      if pc.step.status == Pending then
        && pc.i < |w'.plan.steps| && L.Committing(w.plan, pc.i, w.head, w'.plan)
        && GoesTo(w, id, Diffing(pc.i, w'.plan.steps[pc.i], w.head), renewedAt, w')
      else w'.plan == w.plan && GoesTo(w, id, Diffing(pc.i, pc.step, w.head), renewedAt, w')
    case MakeCommit(sha) =>
      && w'.plan == w.plan
      && if w.dirty then
           && w'.head == sha && !w'.dirty && w'.commits == w.commits + [Commit(pc.i, w.head, sha)]
           && GoesTo(w, id, Acted(pc.i, pc.step, true), renewedAt,
                     w'.(head := w.head, dirty := w.dirty, commits := w.commits))
         else GoesTo(w, id, Acted(pc.i, pc.step, pc.step.startedHead != Some(pc.before)), renewedAt, w')
    case FinishTask(ok) =>
      && w'.plan == w.plan && (w'.taskCompleted <==> w.taskCompleted || ok)
      && GoesTo(w, id, Acted(pc.i, pc.step, ok), renewedAt, w'.(taskCompleted := w.taskCompleted))
    case SettleActionEnd(ok) =>
      exists next :: L.ActionSettled(w.plan, pc.i, pc.step, ok, w'.plan, next) && GoesOn(w, id, next, renewedAt, w')
  }

  ghost predicate DriverMoves(w: World, id: string, d: DriverEvent, w': World)
    requires id in w.drivers && DriverEnabled(w, id, d)
  {
    match d
    case Crash => w'.plan == w.plan && Returns(w, id, w')
    case DriveLoop => Loops(w, id, w')
    case FailDriver =>
      && Returns(w, id, w') && w'.plan.steps == w.plan.steps
      && if w.plan.status == Active then L.StoppedFor(w.plan, AwaitingAssistant, DriverError, None, w'.plan)
         else w'.plan == w.plan
    case OnStart(s) => Starts(w, id, s, w')
    case OnRun(r) => Watches(w, id, r, w')
    case OnAction(a) => Acts(w, id, a, w')
  }

  ghost predicate Moves(w: World, e: Event, w': World)
    requires Possible(w, e)
  {
    match e
    case Tick(ms) => w' == w.(now := w.now + ms)
    case Cancel => w' == w.(plan := w'.plan) && L.CancelAsked(w.plan, w'.plan)
    case Continue(stepId) => w' == w.(plan := w'.plan) && L.Continues(w.plan, stepId, Ok(w'.plan))
    case ClaimPlan(id) => L.Claims(w.plan, id, w.now, true, w'.plan) && GoesTo(w, id, Top, None, w')
    case TouchWorktree(head, dirty) => w' == w.(head := head, dirty := dirty)
    case ByDriver(id, d) => DriverMoves(w, id, d, w')
  }

  /** What a driver can do next where it waits, besides crashing and failing. */
  ghost predicate MayDo(w: World, pc: Pc, d: DriverEvent) {
    match pc
    case Top => d == DriveLoop
    case Starting(_, step) =>
      var op := OpKey(step.key, step.attempts + 1);
      || (d.OnStart? && d.s.NeedApproval?)
      || (op in w.ops && d == OnStart(Replay))
      || (op !in w.ops && d.OnStart? && d.s.ClaimKey? && forall other | other in w.ops :: w.ops[other] != d.s.run)
    case Claimed(_, _, _) => d == OnStart(Spawn)
    case Launched(i, _, _) => i < |w.plan.steps| && d == OnStart(SaveStart)
    case Polling(_, _) => d == OnRun(PollRun)
    case AskingStatus(_, _) => d == OnRun(StillActive) || (d.OnRun? && d.r.RunEnded?)
    case Settling(i, _, _) => i < |w.plan.steps| && d == OnRun(SettleRunEnd)
    case SavingEvidence => d == OnRun(SaveEvidence)
    case ReadingHead(i, step) =>
      || (step.action == GitCommit && i < |w.plan.steps| && d == OnAction(ReadHead))
      || (step.action == TaskFinish && d.OnAction? && d.a.FinishTask?)
    case Diffing(_, _, _) => d.OnAction? && d.a.MakeCommit? && d.a.sha != w.head
    case Acted(i, _, ok) =>
      i < |w.plan.steps| && (d == OnAction(SettleActionEnd(false)) || (ok && d == OnAction(SettleActionEnd(true))))
  }

  lemma {:induction false} FreshRun(w: World, run: string)
    ensures run !in w.ops.Values <==> forall op | op in w.ops :: w.ops[op] != run
  {
    if run in w.ops.Values {
      var op :| op in w.ops && w.ops[op] == run;
    }
  }

  /** A driver makes its steps in this order and no other. */
  lemma {:induction false} MayDoExactly(w: World, id: string, d: DriverEvent)
    requires id in w.drivers
    ensures DriverEnabled(w, id, d) <==> d == Crash || d == FailDriver || MayDo(w, w.drivers[id].pc, d)
  {
    if d.OnStart? && d.s.ClaimKey? {
      FreshRun(w, d.s.run);
    }
  }

  lemma {:induction false} ResumeMeans(w: World, id: string, q: Plan, next: Next)
    requires id in w.drivers && (next.Start? || next.Poll? || next.Act? ==> next.i < |q.steps|)
    ensures GoesOn(w, id, next, w.drivers[id].renewedAt, Resume(w, id, q, next))
    ensures Resume(w, id, q, next).plan == q
  {
    if next != Return {
      assert WaitsAt(q.steps, next, PcFor(q.steps, next));
    }
  }

  lemma {:induction false} RenewedGoesOn(w: World, id: string, next: Next, w': World)
    requires id in w.drivers && Owns(w.plan, id) && GoesOn(Renewed(w, id), id, next, Some(w.now), w')
    ensures GoesOn(w, id, next, Some(w.now), w')
  {
    var r := Renewed(w, id);
    if next == Return {
      assert r.drivers - {id} == w.drivers - {id};
    } else {
      var pc :| WaitsAt(w'.plan.steps, next, pc) && GoesTo(r, id, pc, Some(w.now), w');
      assert r.drivers[id := Driver(pc, Some(w.now))] == w.drivers[id := Driver(pc, Some(w.now))];
      assert GoesTo(w, id, pc, Some(w.now), w');
    }
  }

  lemma {:induction false} OwnedLoopGoesOn(w: World, id: string)
    requires id in w.drivers && Owns(w.plan, id)
    ensures Looped(w, id).plan == Drive(w.plan, id, w.now, w.taskCompleted).0
    ensures GoesOn(w, id, Drive(w.plan, id, w.now, w.taskCompleted).1, Some(w.now), Looped(w, id))
  {
    var r := Renewed(w, id);
    var (q, next) := DriveOwned(r.plan, w.taskCompleted);
    ResumeMeans(r, id, q, next);
    RenewedGoesOn(w, id, next, Resume(r, id, q, next));
  }

  lemma {:induction false} LoopMeans(w: World, id: string)
    requires id in w.drivers
    ensures Loops(w, id, Looped(w, id))
  {
    var next, w' := Drive(w.plan, id, w.now, w.taskCompleted).1, Looped(w, id);
    L.DriveMeans(w.plan, id, w.now, w.taskCompleted);
    if Owns(w.plan, id) {
      OwnedLoopGoesOn(w, id);
    } else {
      assert GoesOn(w, id, Return, Some(w.now), w');
    }
    LoopsBy(w, id, next, w');
  }

  lemma {:induction false} LoopsBy(w: World, id: string, next: Next, w': World)
    requires id in w.drivers && L.Drives(w.plan, id, w.now, w.taskCompleted, w'.plan, next)
    requires GoesOn(w, id, next, Some(w.now), w')
    ensures Loops(w, id, w')
  {
  }

  lemma {:induction false} StartingMeans(w: World, id: string, s: StartEvent)
    requires id in w.drivers && StartEnabled(w, id, s)
    ensures Starts(w, id, s, AfterStart(w, id, s))
  {
    var pc := w.drivers[id].pc;
    match s {
      case NeedApproval(user) => L.ApprovalMeans(w.plan, pc.step, user);
      case SaveStart => L.StartMeans(w.plan, pc.i, pc.run);
      case _ =>
    }
  }

  lemma {:induction false} PollingMeans(w: World, id: string)
    requires id in w.drivers && RunEnabled(w, id, PollRun)
    ensures Watches(w, id, PollRun, Polled(w, id))
  {
    if !w.plan.cancelRequested && Owns(w.plan, id) {
      var pc := w.drivers[id].pc;
      L.RenewMeans(w.plan, id, w.now);
      var r := Renewed(w, id);
      var there := Driver(AskingStatus(pc.i, pc.step), Some(w.now));
      assert r.drivers[id := there] == w.drivers[id := there];
    }
  }

  lemma {:induction false} SettlingMeans(w: World, id: string)
    requires id in w.drivers && RunEnabled(w, id, SettleRunEnd)
    ensures Watches(w, id, SettleRunEnd, Settled(w, id))
  {
    var pc := w.drivers[id].pc;
    var (q, next) := SettleRun(w.plan, pc.i, pc.step, pc.t);
    L.SettleRunMeans(w.plan, pc.i, pc.step, pc.t);
    ResumeMeans(w, id, q, next);
  }

  lemma {:induction false} WatchingMeans(w: World, id: string, r: RunEvent)
    requires id in w.drivers && RunEnabled(w, id, r)
    ensures Watches(w, id, r, AfterRun(w, id, r))
  {
    match r {
      case PollRun => PollingMeans(w, id);
      case SettleRunEnd => SettlingMeans(w, id);
      case _ =>
    }
  }

  lemma {:induction false} HeadMeans(w: World, id: string)
    requires id in w.drivers && ActionEnabled(w, id, ReadHead)
    ensures Acts(w, id, ReadHead, HeadRead(w, id))
  {
    var Driver(pc, renewedAt) := w.drivers[id];
    if pc.step.status == Pending {
      L.BeginMeans(w.plan, pc.i, w.head);
      var there := Driver(Diffing(pc.i, BeginCommit(w.plan, pc.i, w.head).steps[pc.i], w.head), renewedAt);
      assert w.drivers[id := Driver(Top, renewedAt)][id := there] == w.drivers[id := there];
    }
  }

  lemma {:induction false} ActionSettlingMeans(w: World, id: string, ok: bool)
    requires id in w.drivers && ActionEnabled(w, id, SettleActionEnd(ok))
    ensures Acts(w, id, SettleActionEnd(ok), ActionSettled(w, id, ok))
  {
    var pc := w.drivers[id].pc;
    var (q, next) := SettleAction(w.plan, pc.i, pc.step, ok);
    L.SettleActionMeans(w.plan, pc.i, pc.step, ok);
    ResumeMeans(w, id, q, next);
  }

  lemma {:induction false} ActingMeans(w: World, id: string, a: ActionEvent)
    requires id in w.drivers && ActionEnabled(w, id, a)
    ensures Acts(w, id, a, AfterAction(w, id, a))
  {
    match a {
      case ReadHead => HeadMeans(w, id);
      case SettleActionEnd(ok) => ActionSettlingMeans(w, id, ok);
      case _ =>
    }
  }

  lemma {:induction false} DriverMeans(w: World, id: string, d: DriverEvent)
    requires id in w.drivers && DriverEnabled(w, id, d)
    ensures DriverMoves(w, id, d, AfterDriver(w, id, d))
  {
    match d {
      case DriveLoop => LoopMeans(w, id);
      case FailDriver => L.FailureMeans(w.plan);
      case OnStart(s) => StartingMeans(w, id, s);
      case OnRun(r) => WatchingMeans(w, id, r);
      case OnAction(a) => ActingMeans(w, id, a);
      case Crash =>
    }
  }

  lemma {:induction false} EventMeans(w: World, e: Event)
    requires Possible(w, e)
    ensures Moves(w, e, Apply(w, e))
  {
    match e {
      case Cancel => L.CancelCallMeans(w.plan);
      case Continue(stepId) => L.ContinueMeans(w.plan, stepId);
      case ClaimPlan(id) => L.ClaimMeans(w.plan, id, w.now);
      case ByDriver(id, d) => DriverMeans(w, id, d);
      case _ =>
    }
  }

  /** So every step of a run, guarded or not, is one the driver may make and does what its law says. */
  lemma {:induction false} RunsMove(ws: seq<World>, es: seq<Event>, k: nat)
    requires IsLooseRun(ws, es) && k < |es|
    ensures Possible(ws[k], es[k]) && Moves(ws[k], es[k], ws[k + 1])
    ensures es[k].ByDriver? ==>
      var d := es[k].d;
      d == Crash || d == FailDriver || MayDo(ws[k], ws[k].drivers[es[k].who].pc, d)
  {
    assert LooseStep(ws[k], es[k], ws[k + 1]);
    EventMeans(ws[k], es[k]);
    if es[k].ByDriver? {
      MayDoExactly(ws[k], es[k].who, es[k].d);
    }
  }
}
