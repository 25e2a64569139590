/** Several drivers, crashes and API calls interleaved on one stored plan.
    Every suspension point of a driver is a state of its own. */
module PlanRuns {
  import opened Base
  import opened PlanModel
  import opened PlanInvariants

  /** Where a driver is suspended, with its own snapshot of the step. */
  datatype Pc =
    | Top
    | Starting(i: nat, step: Step)
    | Claimed(i: nat, step: Step, run: string)
    | Launched(i: nat, step: Step, run: string)
    | Polling(i: nat, step: Step)
    | AskingStatus(i: nat, step: Step)
    | Settling(i: nat, step: Step, t: Terminal)
    | SavingEvidence
    | ReadingHead(i: nat, step: Step)
    | Diffing(i: nat, step: Step, before: string)
    | Acted(i: nat, step: Step, ok: bool)

  /** `renewedAt` is the time of the driver's last successful renewal. */
  datatype Driver = Driver(pc: Pc, renewedAt: Option<nat>)

  datatype OpKey = OpKey(key: string, attempt: nat)

  datatype Child = Child(op: OpKey, run: string)

  datatype Commit = Commit(step: nat, parent: string, sha: string)

  /** `ops` are the retained idempotency operations of this plan, `children`
      every process ever spawned for it, `commits` every commit it made. */
  datatype World = World(
    plan: Plan,
    now: nat,
    drivers: map<string, Driver>,
    ops: map<OpKey, string>,
    children: seq<Child>,
    head: string,
    dirty: bool,
    commits: seq<Commit>,
    taskCompleted: bool)

  /** Inside `process.start`, up to recording the run in the plan. */
  datatype StartEvent = Replay | NeedApproval(user: bool) | ClaimKey(run: string) | Spawn | SaveStart

  /** Waiting for a run to end and recording how it ended. */
  datatype RunEvent = PollRun | StillActive | RunEnded(t: Terminal) | SettleRunEnd | SaveEvidence

  /** A commit or a task finish made by the driver itself. */
  datatype ActionEvent = ReadHead | MakeCommit(sha: string) | FinishTask(ok: bool) | SettleActionEnd(ok: bool)

  datatype DriverEvent =
    | Crash
    | DriveLoop
    | FailDriver
    | OnStart(s: StartEvent)
    | OnRun(r: RunEvent)
    | OnAction(a: ActionEvent)

  datatype Event =
    | Tick(ms: nat)
    | Cancel
    | Continue(stepId: string)
    | ClaimPlan(id: string)
    | TouchWorktree(head: string, dirty: bool)
    | ByDriver(who: string, d: DriverEvent)

  /** The driver's last successful renewal is at most half a lease ago. */
  ghost predicate Timely(w: World, id: string) {
    && id in w.drivers && w.drivers[id].renewedAt.Some?
    && 2 * (w.now - w.drivers[id].renewedAt.value) <= DRIVER_LEASE_MS
  }

  /** At the loop head, or on the way to it with nothing left to change. */
  predicate AtHead(pc: Pc) {
    pc.Top? || pc.SavingEvidence?
  }

  function KeyOf(step: Step): OpKey {
    OpKey(step.key, step.attempts + 1)
  }

  /** Nothing outside the plan touches the worktree while a commit step is under way. */
  ghost predicate WorktreeQuiet(w: World) {
    && (forall i | 0 <= i < |w.plan.steps| ::
          !(w.plan.steps[i].action == GitCommit && w.plan.steps[i].status == Running))
    && (forall id | id in w.drivers && Owns(w.plan, id) :: !w.drivers[id].pc.ReadingHead?)
  }

  ghost predicate StartEnabled(w: World, id: string, s: StartEvent)
    requires id in w.drivers
  {
    var pc := w.drivers[id].pc;
    match s
    case Replay => pc.Starting? && KeyOf(pc.step) in w.ops
    case NeedApproval(_) => pc.Starting?
    case ClaimKey(run) => pc.Starting? && KeyOf(pc.step) !in w.ops && run !in w.ops.Values
    case Spawn => pc.Claimed?
    case SaveStart => pc.Launched? && pc.i < |w.plan.steps|
  }

  ghost predicate RunEnabled(w: World, id: string, r: RunEvent)
    requires id in w.drivers
  {
    var pc := w.drivers[id].pc;
    match r
    case PollRun => pc.Polling?
    case StillActive => pc.AskingStatus?
    case RunEnded(_) => pc.AskingStatus?
    case SettleRunEnd => pc.Settling? && pc.i < |w.plan.steps|
    case SaveEvidence => pc.SavingEvidence?
  }

  ghost predicate ActionEnabled(w: World, id: string, a: ActionEvent)
    requires id in w.drivers
  {
    var pc := w.drivers[id].pc;
    match a
    case ReadHead => pc.ReadingHead? && pc.step.action == GitCommit && pc.i < |w.plan.steps|
    case MakeCommit(sha) => pc.Diffing? && sha != w.head
    case FinishTask(_) => pc.ReadingHead? && pc.step.action == TaskFinish
    case SettleActionEnd(ok) => pc.Acted? && pc.i < |w.plan.steps| && (ok ==> pc.ok)
  }

  ghost predicate DriverEnabled(w: World, id: string, d: DriverEvent)
    requires id in w.drivers
  {
    match d
    case Crash => true
    case DriveLoop => w.drivers[id].pc.Top?
    case FailDriver => true
    case OnStart(s) => StartEnabled(w, id, s)
    case OnRun(r) => RunEnabled(w, id, r)
    case OnAction(a) => ActionEnabled(w, id, a)
  }

  /** What can happen next, as far as the code's own control goes. */
  ghost predicate Possible(w: World, e: Event) {
    match e
    case Tick(_) => true
    case Cancel => true
    case Continue(stepId) => ContinueCall(w.plan, stepId).Ok?
    case ClaimPlan(id) => id !in w.drivers && Claimable(w.plan, id, w.now)
    case TouchWorktree(_, _) => true
    case ByDriver(id, d) => id in w.drivers && DriverEnabled(w, id, d)
  }

  /** The mutations of the plan or the worktree that a driver makes after an `await`,
      without looking at who drives the plan now. */
  predicate Mutates(d: DriverEvent) {
    match d
    case FailDriver => true
    case OnStart(s) => s.NeedApproval? || s.SaveStart?
    case OnRun(r) => r.SettleRunEnd?
    case OnAction(a) => !a.FinishTask?
    case _ => false
  }

  /** The check the code lacks: the plan still names the driver that mutates it. */
  predicate Guarded(w: World, id: string, d: DriverEvent) {
    Mutates(d) ==> Owns(w.plan, id)
  }

  /** Nothing else touches the worktree during a commit step. */
  ghost predicate Quiet(w: World, e: Event) {
    e.TouchWorktree? ==> WorktreeQuiet(w)
  }

  ghost predicate Enabled(w: World, e: Event) {
    Possible(w, e) && Quiet(w, e) && (e.ByDriver? ==> Guarded(w, e.who, e.d))
  }

  /** The timing assumption: every mutation is made within half a lease of the driver's last renewal. */
  ghost predicate InTime(w: World, e: Event) {
    e.ByDriver? && Mutates(e.d) ==> Timely(w, e.who)
  }

  function Drop(w: World, id: string): World {
    w.(drivers := w.drivers - {id})
  }

  function Goto(w: World, id: string, pc: Pc): World
    requires id in w.drivers
  {
    w.(drivers := w.drivers[id := w.drivers[id].(pc := pc)])
  }

  function PcFor(steps: seq<Step>, next: Next): Pc
    requires next.Start? || next.Poll? || next.Act? ==> next.i < |steps|
  {
    match next
    case Start(i) => Starting(i, steps[i])
    case Poll(i) => Polling(i, steps[i])
    case Act(i) => ReadingHead(i, steps[i])
    case RecordEvidence(_) => SavingEvidence
    case _ => Top
  }

  /** The driver stores `q` and goes on, or stores `q` and returns. */
  function Resume(w: World, id: string, q: Plan, next: Next): World
    requires id in w.drivers
    requires next.Start? || next.Poll? || next.Act? ==> next.i < |q.steps|
  {
    if next == Return then Drop(w, id).(plan := q) else Goto(w, id, PcFor(q.steps, next)).(plan := q)
  }

  /** A successful renewal. */
  function Renewed(w: World, id: string): World
    requires id in w.drivers && Owns(w.plan, id)
  {
    w.(plan := RenewDriver(w.plan, id, w.now),
       drivers := w.drivers[id := w.drivers[id].(renewedAt := Some(w.now))])
  }

  function Looped(w: World, id: string): World
    requires id in w.drivers
  {
    if !Owns(w.plan, id) then Drop(w, id)
    else
      var r := Renewed(w, id);
      var (q, next) := DriveOwned(r.plan, w.taskCompleted);
      Resume(r, id, q, next)
  }

  ghost function AfterStart(w: World, id: string, s: StartEvent): World
    requires id in w.drivers && StartEnabled(w, id, s)
  {
    var pc := w.drivers[id].pc;
    match s
    case Replay => Goto(w, id, Launched(pc.i, pc.step, w.ops[KeyOf(pc.step)]))
    case NeedApproval(user) => Resume(w, id, ApprovalNeeded(w.plan, pc.step, user), Return)
    case ClaimKey(run) => Goto(w, id, Claimed(pc.i, pc.step, run)).(ops := w.ops[KeyOf(pc.step) := run])
    case Spawn =>
      Goto(w, id, Launched(pc.i, pc.step, pc.run)).(children := w.children + [Child(KeyOf(pc.step), pc.run)])
    case SaveStart => Resume(w, id, RecordStart(w.plan, pc.i, pc.run), Poll(pc.i))
  }

  function Polled(w: World, id: string): World
    requires id in w.drivers && w.drivers[id].pc.Polling?
  {
    var pc := w.drivers[id].pc;
    if w.plan.cancelRequested then Goto(w, id, Top)
    else if !Owns(w.plan, id) then Drop(w, id)
    else Goto(Renewed(w, id), id, AskingStatus(pc.i, pc.step))
  }

  function Settled(w: World, id: string): World
    requires id in w.drivers && w.drivers[id].pc.Settling? && w.drivers[id].pc.i < |w.plan.steps|
  {
    var pc := w.drivers[id].pc;
    var (q, next) := SettleRun(w.plan, pc.i, pc.step, pc.t);
    Resume(w, id, q, next)
  }

  ghost function AfterRun(w: World, id: string, r: RunEvent): World
    requires id in w.drivers && RunEnabled(w, id, r)
  {
    var pc := w.drivers[id].pc;
    match r
    case PollRun => Polled(w, id)
    case StillActive => Goto(w, id, Polling(pc.i, pc.step))
    case RunEnded(t) => Goto(w, id, Settling(pc.i, pc.step, t))
    case SettleRunEnd => Settled(w, id)
    case SaveEvidence => Goto(w, id, Top)
  }

  function HeadRead(w: World, id: string): World
    requires id in w.drivers && w.drivers[id].pc.ReadingHead? && w.drivers[id].pc.i < |w.plan.steps|
  {
    var pc := w.drivers[id].pc;
    if pc.step.status == Pending then
      var q := BeginCommit(w.plan, pc.i, w.head);
      Goto(Resume(w, id, q, Loop), id, Diffing(pc.i, q.steps[pc.i], w.head))
    else Goto(w, id, Diffing(pc.i, pc.step, w.head))
  }

  function Committed(w: World, id: string, sha: string): World
    requires id in w.drivers && w.drivers[id].pc.Diffing?
  {
    var pc := w.drivers[id].pc;
    if w.dirty then
      Goto(w, id, Acted(pc.i, pc.step, true)).(
        head := sha, dirty := false, commits := w.commits + [Commit(pc.i, w.head, sha)])
    else Goto(w, id, Acted(pc.i, pc.step, Some(pc.before) != pc.step.startedHead))
  }

  function ActionSettled(w: World, id: string, ok: bool): World
    requires id in w.drivers && w.drivers[id].pc.Acted? && w.drivers[id].pc.i < |w.plan.steps|
  {
    var pc := w.drivers[id].pc;
    var (q, next) := SettleAction(w.plan, pc.i, pc.step, ok);
    Resume(w, id, q, next)
  }

  ghost function AfterAction(w: World, id: string, a: ActionEvent): World
    requires id in w.drivers && ActionEnabled(w, id, a)
  {
    var pc := w.drivers[id].pc;
    match a
    case ReadHead => HeadRead(w, id)
    case MakeCommit(sha) => Committed(w, id, sha)
    case FinishTask(ok) => Goto(w, id, Acted(pc.i, pc.step, ok)).(taskCompleted := w.taskCompleted || ok)
    case SettleActionEnd(ok) => ActionSettled(w, id, ok)
  }

  ghost function AfterDriver(w: World, id: string, d: DriverEvent): World
    requires id in w.drivers && DriverEnabled(w, id, d)
  {
    match d
    case Crash => Drop(w, id)
    case DriveLoop => Looped(w, id)
    case FailDriver => Resume(w, id, DriverFailure(w.plan), Return)
    case OnStart(s) => AfterStart(w, id, s)
    case OnRun(r) => AfterRun(w, id, r)
    case OnAction(a) => AfterAction(w, id, a)
  }

  ghost function Apply(w: World, e: Event): World
    requires Possible(w, e)
  {
    match e
    case Tick(ms) => w.(now := w.now + ms)
    case Cancel => w.(plan := CancelCall(w.plan))
    case Continue(stepId) => w.(plan := ContinueCall(w.plan, stepId).value)
    case ClaimPlan(id) =>
      w.(plan := ClaimDriver(w.plan, id, w.now), drivers := w.drivers[id := Driver(Top, None)])
    case TouchWorktree(head, dirty) => w.(head := head, dirty := dirty)
    case ByDriver(id, d) => AfterDriver(w, id, d)
  }

  ghost predicate DistinctKeys(steps: seq<Step>) {
    forall i, j | 0 <= i < j < |steps| :: steps[i].key != steps[j].key
  }

  ghost predicate Init(w: World) {
    && NewPlan(w.plan) && DistinctKeys(w.plan.steps)
    && w.drivers == map[] && w.ops == map[] && w.children == [] && w.commits == []
  }

  /** A guarded run: every mutation is made by the driver that the plan still names. */
  ghost predicate IsRun(ws: seq<World>, es: seq<Event>) {
    && |ws| == |es| + 1 && Init(ws[0])
    && forall k {:trigger es[k]} | 0 <= k < |es| :: StepsTo(ws[k], es[k], ws[k + 1])
  }

  ghost predicate StepsTo(w: World, e: Event, w': World) {
    Enabled(w, e) && w' == Apply(w, e)
  }

  /** A timed run: every mutation is made in time, whoever the plan names. */
  ghost predicate IsTimedRun(ws: seq<World>, es: seq<Event>) {
    && |ws| == |es| + 1 && Init(ws[0])
    && forall k {:trigger es[k]} | 0 <= k < |es| :: TimedStep(ws[k], es[k], ws[k + 1])
  }

  ghost predicate TimedStep(w: World, e: Event, w': World) {
    Possible(w, e) && Quiet(w, e) && InTime(w, e) && w' == Apply(w, e)
  }

  /** What the code alone allows: drivers may be as late as they like. */
  ghost predicate IsLooseRun(ws: seq<World>, es: seq<Event>) {
    && |ws| == |es| + 1 && Init(ws[0])
    && forall k {:trigger es[k]} | 0 <= k < |es| :: LooseStep(ws[k], es[k], ws[k + 1])
  }

  ghost predicate LooseStep(w: World, e: Event, w': World) {
    Possible(w, e) && w' == Apply(w, e)
  }

  // ----- Plan, lease and drivers -----

  /** The owner's snapshot agrees with the stored plan. */
  ghost predicate Fresh(p: Plan, pc: Pc) {
    match pc
    case Top => true
    case SavingEvidence => true
    case Starting(i, step) => ChosenAs(p, i, step) && step.action == Command && step.status == Pending
    case Claimed(i, step, _) => ChosenAs(p, i, step) && step.action == Command && step.status == Pending
    case Launched(i, step, _) => ChosenAs(p, i, step) && step.action == Command && step.status == Pending
    case Polling(i, step) => ChosenAs(p, i, step) && step.action == Command && step.status == Running
    case AskingStatus(i, step) => ChosenAs(p, i, step) && step.action == Command && step.status == Running
    case Settling(i, step, _) => ChosenAs(p, i, step) && step.action == Command && step.status == Running
    case ReadingHead(i, step) => ChosenAs(p, i, step) && (step.action == GitCommit || step.action == TaskFinish)
    case Diffing(i, step, _) => ChosenAs(p, i, step) && step.action == GitCommit && step.status == Running
    case Acted(i, step, _) =>
      && ChosenAs(p, i, step) && (step.action == GitCommit || step.action == TaskFinish)
      && (step.action == GitCommit ==> step.status == Running)
  }

  ghost predicate ChosenAs(p: Plan, i: nat, step: Step) {
    Chosen(p, i) && p.steps[i] == step
  }

  /** A driver that is still timely holds an unexpired lease on an active plan. */
  ghost predicate LeaseHeld(w: World, id: string)
    requires id in w.drivers
  {
    w.drivers[id].renewedAt.Some? ==>
      var t := w.drivers[id].renewedAt.value;
      && t <= w.now
      && (2 * (w.now - t) <= DRIVER_LEASE_MS ==>
            Owns(w.plan, id) && w.plan.leaseUntil.Some? && 2 * (w.plan.leaseUntil.value - t) > DRIVER_LEASE_MS)
  }

  ghost predicate Core(w: World) {
    && PlanOk(w.plan)
    && (forall id | id in w.drivers :: LeaseHeld(w, id))
    && (forall id | id in w.drivers :: Owns(w.plan, id) ==> Fresh(w.plan, w.drivers[id].pc))
  }

  /** One event keeps the core invariant, never undoes a step and never reopens a final plan. */
  ghost predicate Kept(w: World, w': World) {
    && Core(w') && Progress(w.plan, w'.plan)
    && (IsFinal(w.plan.status) ==> w'.plan == w.plan)
  }

  lemma {:induction false} TimelyOwns(w: World, id: string)
    requires Core(w) && Timely(w, id)
    ensures Owns(w.plan, id) && w.plan.leaseUntil.Some? && w.plan.leaseUntil.value > w.now
    ensures Fresh(w.plan, w.drivers[id].pc)
  {
    assert LeaseHeld(w, id);
    OwnerFresh(w, id);
  }

  lemma {:induction false} OwnerFresh(w: World, id: string)
    requires Core(w) && id in w.drivers && Owns(w.plan, id)
    ensures Fresh(w.plan, w.drivers[id].pc)
  {
  }

  /** The owner's mutation keeps the core invariant: nobody else can be timely. */
  lemma {:induction false} ResumeCore(w: World, id: string, q: Plan, next: Next)
    requires Core(w) && id in w.drivers && Owns(w.plan, id) && PlanOk(q) && Progress(w.plan, q)
    requires next.Start? || next.Poll? || next.Act? ==> next.i < |q.steps|
    requires next == Return ==> q.status != Active
    requires next != Return ==> q.status == Active && q.driver == w.plan.driver && q.leaseUntil == w.plan.leaseUntil
    requires next != Return ==> Fresh(q, PcFor(q.steps, next))
    ensures Kept(w, Resume(w, id, q, next))
  {
    OwnerFresh(w, id);
    var w' := Resume(w, id, q, next);
    forall d | d in w'.drivers ensures LeaseHeld(w', d) {
      assert LeaseHeld(w, d);
    }
  }

  lemma {:induction false} RenewedCore(w: World, id: string)
    requires Core(w) && id in w.drivers && Owns(w.plan, id)
    ensures Kept(w, Renewed(w, id)) && Timely(Renewed(w, id), id) && Owns(Renewed(w, id).plan, id)
  {
    var w' := Renewed(w, id);
    forall d | d in w'.drivers ensures LeaseHeld(w', d) {
      assert LeaseHeld(w, d);
    }
    forall d | d in w'.drivers && Owns(w'.plan, d) ensures Fresh(w'.plan, w'.drivers[d].pc) {
      assert Fresh(w.plan, w.drivers[d].pc);
    }
  }

  lemma {:induction false} GotoCore(w: World, id: string, pc: Pc)
    requires Core(w) && id in w.drivers && (Owns(w.plan, id) ==> Fresh(w.plan, pc))
    ensures Kept(w, Goto(w, id, pc))
  {
  }

  lemma {:induction false} DropCore(w: World, id: string)
    requires Core(w)
    ensures Kept(w, Drop(w, id))
  {
  }

  lemma {:induction false} TickCore(w: World, ms: nat)
    requires Core(w)
    ensures Kept(w, w.(now := w.now + ms))
  {
  }

  lemma {:induction false} CancelCore(w: World)
    requires Core(w)
    ensures Kept(w, w.(plan := CancelCall(w.plan)))
  {
    CancelCallOk(w.plan);
    var w' := w.(plan := CancelCall(w.plan));
    forall d | d in w'.drivers ensures LeaseHeld(w', d) && (Owns(w'.plan, d) ==> Fresh(w'.plan, w'.drivers[d].pc)) {
      assert LeaseHeld(w, d);
    }
  }

  lemma {:induction false} ContinueCore(w: World, stepId: string)
    requires Core(w) && ContinueCall(w.plan, stepId).Ok?
    ensures Kept(w, w.(plan := ContinueCall(w.plan, stepId).value))
  {
    ContinueCallOk(w.plan, stepId);
    var w' := w.(plan := ContinueCall(w.plan, stepId).value);
    forall d | d in w'.drivers ensures LeaseHeld(w', d) {
      assert LeaseHeld(w, d);
    }
  }

  lemma {:induction false} ClaimCore(w: World, id: string)
    requires Core(w) && id !in w.drivers && Claimable(w.plan, id, w.now)
    ensures Kept(w, w.(plan := ClaimDriver(w.plan, id, w.now), drivers := w.drivers[id := Driver(Top, None)]))
  {
  }

  /** Neither the plan nor any driver moves. */
  lemma {:induction false} SameCore(w: World, w': World)
    requires Core(w) && w'.plan == w.plan && w'.drivers == w.drivers && w'.now == w.now
    ensures Kept(w, w')
  {
  }

  lemma {:induction false} DriveKeepsLease(p: Plan, taskCompleted: bool)
    ensures var (q, next) := DriveOwned(p, taskCompleted); next != Return ==> q == p
  {
  }

  lemma {:induction false} LoopCore(w: World, id: string)
    requires Core(w) && id in w.drivers
    ensures Kept(w, Looped(w, id))
  {
    if !Owns(w.plan, id) {
      DropCore(w, id);
    } else {
      RenewedCore(w, id);
      var r := Renewed(w, id);
      DriveOwnedOk(r.plan, id, w.taskCompleted);
      var (q, next) := DriveOwned(r.plan, w.taskCompleted);
      DriveKeepsLease(r.plan, w.taskCompleted);
      ResumeCore(r, id, q, next);
    }
  }

  lemma {:induction false} StartCore(w: World, id: string, s: StartEvent)
    requires Core(w) && id in w.drivers && StartEnabled(w, id, s) && Guarded(w, id, OnStart(s))
    ensures Kept(w, AfterStart(w, id, s))
  {
    var pc := w.drivers[id].pc;
    match s {
      case Replay => GotoCore(w, id, Launched(pc.i, pc.step, w.ops[KeyOf(pc.step)]));
      case ClaimKey(run) =>
        GotoCore(w, id, Claimed(pc.i, pc.step, run));
        SameCore(Goto(w, id, Claimed(pc.i, pc.step, run)), AfterStart(w, id, s));
      case Spawn =>
        GotoCore(w, id, Launched(pc.i, pc.step, pc.run));
        SameCore(Goto(w, id, Launched(pc.i, pc.step, pc.run)), AfterStart(w, id, s));
      case NeedApproval(user) =>
        OwnerFresh(w, id);
        ApprovalOk(w.plan, pc.i, user);
        ResumeCore(w, id, ApprovalNeeded(w.plan, pc.step, user), Return);
      case SaveStart =>
        OwnerFresh(w, id);
        RecordStartOk(w.plan, pc.i, pc.run);
        ResumeCore(w, id, RecordStart(w.plan, pc.i, pc.run), Poll(pc.i));
    }
  }

  lemma {:induction false} PollCore(w: World, id: string)
    requires Core(w) && id in w.drivers && w.drivers[id].pc.Polling?
    ensures Kept(w, Polled(w, id))
  {
    var pc := w.drivers[id].pc;
    if w.plan.cancelRequested {
      GotoCore(w, id, Top);
    } else if !Owns(w.plan, id) {
      DropCore(w, id);
    } else {
      RenewedCore(w, id);
      GotoCore(Renewed(w, id), id, AskingStatus(pc.i, pc.step));
    }
  }

  lemma {:induction false} SettleCore(w: World, id: string)
    requires Core(w) && id in w.drivers && w.drivers[id].pc.Settling? && w.drivers[id].pc.i < |w.plan.steps|
    requires Owns(w.plan, id)
    ensures Kept(w, Settled(w, id))
  {
    var pc := w.drivers[id].pc;
    OwnerFresh(w, id);
    SettleRunOk(w.plan, pc.i, pc.t);
    var (q, next) := SettleRun(w.plan, pc.i, pc.step, pc.t);
    ResumeCore(w, id, q, next);
  }

  lemma {:induction false} RunCore(w: World, id: string, r: RunEvent)
    requires Core(w) && id in w.drivers && RunEnabled(w, id, r) && Guarded(w, id, OnRun(r))
    ensures Kept(w, AfterRun(w, id, r))
  {
    var pc := w.drivers[id].pc;
    match r {
      case PollRun => PollCore(w, id);
      case StillActive => GotoCore(w, id, Polling(pc.i, pc.step));
      case RunEnded(t) => GotoCore(w, id, Settling(pc.i, pc.step, t));
      case SettleRunEnd => SettleCore(w, id);
      case SaveEvidence => GotoCore(w, id, Top);
    }
  }

  lemma {:induction false} HeadReadCore(w: World, id: string)
    requires Core(w) && id in w.drivers && ActionEnabled(w, id, ReadHead) && Guarded(w, id, OnAction(ReadHead))
    ensures Kept(w, HeadRead(w, id))
  {
    var pc := w.drivers[id].pc;
    OwnerFresh(w, id);
    if pc.step.status == Pending {
      BeginCommitOk(w.plan, pc.i, w.head);
      var q := BeginCommit(w.plan, pc.i, w.head);
      ResumeCore(w, id, q, Loop);
      GotoCore(Resume(w, id, q, Loop), id, Diffing(pc.i, q.steps[pc.i], w.head));
    } else {
      GotoCore(w, id, Diffing(pc.i, pc.step, w.head));
    }
  }

  lemma {:induction false} CommittedCore(w: World, id: string, sha: string)
    requires Core(w) && id in w.drivers && w.drivers[id].pc.Diffing?
    ensures Kept(w, Committed(w, id, sha))
  {
    var pc := w.drivers[id].pc;
    var ok := w.dirty || Some(pc.before) != pc.step.startedHead;
    GotoCore(w, id, Acted(pc.i, pc.step, ok));
    SameCore(Goto(w, id, Acted(pc.i, pc.step, ok)), Committed(w, id, sha));
  }

  lemma {:induction false} ActionSettledCore(w: World, id: string, ok: bool)
    requires Core(w) && id in w.drivers && w.drivers[id].pc.Acted? && w.drivers[id].pc.i < |w.plan.steps|
    requires Owns(w.plan, id)
    ensures Kept(w, ActionSettled(w, id, ok))
  {
    var pc := w.drivers[id].pc;
    OwnerFresh(w, id);
    SettleActionOk(w.plan, pc.i, ok);
    var (q, next) := SettleAction(w.plan, pc.i, pc.step, ok);
    ResumeCore(w, id, q, next);
  }

  lemma {:induction false} ActionCore(w: World, id: string, a: ActionEvent)
    requires Core(w) && id in w.drivers && ActionEnabled(w, id, a) && Guarded(w, id, OnAction(a))
    ensures Kept(w, AfterAction(w, id, a))
  {
    var pc := w.drivers[id].pc;
    match a {
      case ReadHead => HeadReadCore(w, id);
      case MakeCommit(sha) => CommittedCore(w, id, sha);
      case FinishTask(ok) =>
        GotoCore(w, id, Acted(pc.i, pc.step, ok));
        SameCore(Goto(w, id, Acted(pc.i, pc.step, ok)), AfterAction(w, id, a));
      case SettleActionEnd(ok) => ActionSettledCore(w, id, ok);
    }
  }

  lemma {:induction false} DriverCore(w: World, id: string, d: DriverEvent)
    requires Core(w) && id in w.drivers && DriverEnabled(w, id, d) && Guarded(w, id, d)
    ensures Kept(w, AfterDriver(w, id, d))
  {
    match d {
      case Crash => DropCore(w, id);
      case DriveLoop => LoopCore(w, id);
      case FailDriver =>
        OwnerFresh(w, id);
        DriverFailureOk(w.plan);
        ResumeCore(w, id, DriverFailure(w.plan), Return);
      case OnStart(s) => StartCore(w, id, s);
      case OnRun(r) => RunCore(w, id, r);
      case OnAction(a) => ActionCore(w, id, a);
    }
  }

  lemma {:induction false} StepKeepsCore(w: World, e: Event)
    requires Core(w) && Enabled(w, e)
    ensures Kept(w, Apply(w, e))
  {
    match e {
      case Tick(ms) => TickCore(w, ms);
      case Cancel => CancelCore(w);
      case Continue(stepId) => ContinueCore(w, stepId);
      case ClaimPlan(id) => ClaimCore(w, id);
      case TouchWorktree(_, _) => SameCore(w, Apply(w, e));
      case ByDriver(id, d) => DriverCore(w, id, d);
    }
  }
}
