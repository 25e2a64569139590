/** How often the drivers of a plan can go round their loop between claims of the plan. */
module PlanTermination {
  import opened Base
  import opened PlanInvariants
  import opened PlanModel
  import opened PlanRuns
  import opened PlanSafety

  function Heads(drivers: map<string, Driver>): set<string> {
    set id | id in drivers && AtHead(drivers[id].pc)
  }

  /** The rounds that drivers can still begin before some step changes: one for each, and one
      more for those at the loop head while no cancellation is requested. */
  function Budget(drivers: map<string, Driver>, cancelled: bool): nat {
    |drivers| + if cancelled then 0 else |Heads(drivers)|
  }

  function BudgetOf(w: World): nat {
    Budget(w.drivers, w.plan.cancelRequested)
  }

  function One(b: bool): nat {
    if b then 1 else 0
  }

  lemma {:induction false} CountOne(s: set<string>, x: string)
    ensures |s + {x}| == |s| + One(x !in s) && |s| == |s - {x}| + One(x in s)
  {
    if x in s {
      assert s + {x} == s;
    } else {
      assert s - {x} == s;
    }
  }

  lemma {:induction false} BudgetWithout(ds: map<string, Driver>, id: string, was: bool, now: bool)
    requires id in ds && (was ==> now)
    ensures Budget(ds - {id}, now) + 1 + One(AtHead(ds[id].pc) && !was) <= Budget(ds, was)
  {
    assert (ds - {id}).Keys == ds.Keys - {id} && |ds| == |ds.Keys| && |ds - {id}| == |(ds - {id}).Keys|;
    CountOne(Heads(ds), id);
    assert Heads(ds - {id}) == Heads(ds) - {id};
  }

  lemma {:induction false} BudgetMoved(ds: map<string, Driver>, id: string, d: Driver, was: bool, now: bool)
    requires id in ds && (was ==> now)
    ensures Budget(ds[id := d], now) + One(AtHead(ds[id].pc) && !was) <= Budget(ds, was) + One(AtHead(d.pc) && !now)
  {
    assert ds[id := d].Keys == ds.Keys && |ds| == |ds.Keys| && |ds[id := d]| == |ds[id := d].Keys|;
    CountOne(Heads(ds), id);
    assert Heads(ds[id := d]) == if AtHead(d.pc) then Heads(ds) + {id} else Heads(ds) - {id};
  }

  lemma {:induction false} BudgetClaimed(ds: map<string, Driver>, id: string, d: Driver, was: bool)
    requires id !in ds
    ensures Budget(ds[id := d], was) <= Budget(ds, was) + 2
  {
    assert ds[id := d].Keys == ds.Keys + {id} && |ds| == |ds.Keys| && |ds[id := d]| == |ds[id := d].Keys|;
    assert Heads(ds[id := d]) <= Heads(ds) + {id};
    SubsetSmaller(Heads(ds[id := d]), Heads(ds) + {id});
  }

  lemma {:induction false} CancelledBudget(ds: map<string, Driver>, was: bool, now: bool)
    requires was ==> now
    ensures Budget(ds, now) <= Budget(ds, was)
  {
  }

  // ----- One event -----

  function Rounds(e: Event): nat {
    One(e.ByDriver? && e.d.DriveLoop?)
  }

  function Claims(e: Event): nat {
    One(e.ClaimPlan?)
  }

  function StepsChange(w: World, w': World): nat {
    One(w'.plan.steps != w.plan.steps)
  }

  /** What an event takes from the budget and gives to it. */
  ghost predicate Paid(w: World, e: Event, w': World) {
    BudgetOf(w') + Rounds(e) <= BudgetOf(w) + 2 * Claims(e) + StepsChange(w, w')
  }

  lemma {:induction false} DriveReturns(p: Plan, taskCompleted: bool)
    ensures
      var (q, next) := DriveOwned(p, taskCompleted);
      && q.cancelRequested == p.cancelRequested
      && (next == Return || (!p.cancelRequested && (next.Start? || next.Poll? || next.Act?)))
  {
  }

  lemma {:induction false} LoopPaid(w: World, id: string)
    requires id in w.drivers && w.drivers[id].pc.Top?
    ensures BudgetOf(Looped(w, id)) + 1 <= BudgetOf(w)
  {
    var c := w.plan.cancelRequested;
    if !Owns(w.plan, id) {
      BudgetWithout(w.drivers, id, c, c);
    } else {
      var r := Renewed(w, id);
      DriveReturns(r.plan, w.taskCompleted);
      var (q, next) := DriveOwned(r.plan, w.taskCompleted);
      BudgetMoved(w.drivers, id, r.drivers[id], c, c);
      if next == Return {
        BudgetWithout(r.drivers, id, c, c);
      } else {
        BudgetMoved(r.drivers, id, r.drivers[id].(pc := PcFor(q.steps, next)), c, c);
      }
    }
  }

  lemma {:induction false} StartPaid(w: World, id: string, s: StartEvent)
    requires id in w.drivers && StartEnabled(w, id, s)
    ensures BudgetOf(AfterStart(w, id, s)) <= BudgetOf(w)
  {
    var c := w.plan.cancelRequested;
    var w' := AfterStart(w, id, s);
    if s.NeedApproval? {
      BudgetWithout(w.drivers, id, c, c);
    } else {
      BudgetMoved(w.drivers, id, w'.drivers[id], c, c);
    }
  }

  lemma {:induction false} PollPaid(w: World, id: string)
    requires id in w.drivers && w.drivers[id].pc.Polling?
    ensures BudgetOf(Polled(w, id)) <= BudgetOf(w)
  {
    var c := w.plan.cancelRequested;
    if !c && !Owns(w.plan, id) {
      BudgetWithout(w.drivers, id, c, c);
    } else {
      var d := Polled(w, id).drivers[id];
      BudgetMoved(w.drivers, id, d, c, c);
      assert Polled(w, id).drivers == w.drivers[id := d];
    }
  }

  /** A settled step has changed, so the driver may come back to the loop head. */
  lemma {:induction false} SettlePaid(w: World, id: string, q: Plan, next: Next)
    requires id in w.drivers && !AtHead(w.drivers[id].pc) && q.cancelRequested == w.plan.cancelRequested
    requires next == Loop || next == Return || next.RecordEvidence?
    requires q.steps != w.plan.steps
    ensures BudgetOf(Resume(w, id, q, next)) <= BudgetOf(w) + 1
  {
    var c := w.plan.cancelRequested;
    if next == Return {
      BudgetWithout(w.drivers, id, c, c);
    } else {
      BudgetMoved(w.drivers, id, w.drivers[id].(pc := PcFor(q.steps, next)), c, c);
    }
  }

  lemma {:induction false} SettledChanges(w: World, id: string)
    requires Core(w) && id in w.drivers && RunEnabled(w, id, SettleRunEnd) && Guarded(w, id, OnRun(SettleRunEnd))
    ensures
      var pc := w.drivers[id].pc;
      var (q, next) := SettleRun(w.plan, pc.i, pc.step, pc.t);
      && q.steps != w.plan.steps && q.cancelRequested == w.plan.cancelRequested
      && (next == Loop || next == Return || next.RecordEvidence?)
  {
    OwnerFresh(w, id);
    var pc := w.drivers[id].pc;
    var (q, next) := SettleRun(w.plan, pc.i, pc.step, pc.t);
    assert w.plan.steps[pc.i].status == Running && q.steps[pc.i].status != Running;
  }

  lemma {:induction false} RunPaid(w: World, id: string, r: RunEvent)
    requires Core(w) && id in w.drivers && RunEnabled(w, id, r) && Guarded(w, id, OnRun(r))
    ensures BudgetOf(AfterRun(w, id, r)) <= BudgetOf(w) + StepsChange(w, AfterRun(w, id, r))
  {
    var c := w.plan.cancelRequested;
    match r {
      case PollRun => PollPaid(w, id);
      case SettleRunEnd =>
        var pc := w.drivers[id].pc;
        var (q, next) := SettleRun(w.plan, pc.i, pc.step, pc.t);
        SettledChanges(w, id);
        SettlePaid(w, id, q, next);
      case _ => BudgetMoved(w.drivers, id, AfterRun(w, id, r).drivers[id], c, c);
    }
  }

  lemma {:induction false} HeadReadPaid(w: World, id: string)
    requires id in w.drivers && ActionEnabled(w, id, ReadHead) && Guarded(w, id, OnAction(ReadHead))
    ensures BudgetOf(HeadRead(w, id)) <= BudgetOf(w)
  {
    var c := w.plan.cancelRequested;
    var d := HeadRead(w, id).drivers[id];
    BudgetMoved(w.drivers, id, d, c, c);
    assert HeadRead(w, id).drivers == w.drivers[id := d];
  }

  lemma {:induction false} ActionPaid(w: World, id: string, a: ActionEvent)
    requires Core(w) && id in w.drivers && ActionEnabled(w, id, a) && Guarded(w, id, OnAction(a))
    ensures BudgetOf(AfterAction(w, id, a)) <= BudgetOf(w) + StepsChange(w, AfterAction(w, id, a))
  {
    var c := w.plan.cancelRequested;
    match a {
      case ReadHead => HeadReadPaid(w, id);
      case SettleActionEnd(ok) =>
        var pc := w.drivers[id].pc;
        var (q, next) := SettleAction(w.plan, pc.i, pc.step, ok);
        ActionChanges(w, id, ok);
        SettlePaid(w, id, q, next);
      case _ => BudgetMoved(w.drivers, id, AfterAction(w, id, a).drivers[id], c, c);
    }
  }

  lemma {:induction false} ActionChanges(w: World, id: string, ok: bool)
    requires Core(w) && id in w.drivers && ActionEnabled(w, id, SettleActionEnd(ok))
    requires Guarded(w, id, OnAction(SettleActionEnd(ok)))
    ensures SettleAction(w.plan, w.drivers[id].pc.i, w.drivers[id].pc.step, ok).0.steps != w.plan.steps
  {
    OwnerFresh(w, id);
    var pc := w.drivers[id].pc;
    var q := SettleAction(w.plan, pc.i, pc.step, ok).0;
    assert !IsTerminalStep(w.plan.steps[pc.i].status) && IsTerminalStep(q.steps[pc.i].status);
  }

  lemma {:induction false} DriverPaid(w: World, id: string, d: DriverEvent)
    requires Core(w) && id in w.drivers && DriverEnabled(w, id, d) && Guarded(w, id, d)
    ensures Paid(w, ByDriver(id, d), AfterDriver(w, id, d))
  {
    var c := w.plan.cancelRequested;
    match d {
      case DriveLoop => LoopPaid(w, id);
      case OnStart(s) => StartPaid(w, id, s);
      case OnRun(r) => RunPaid(w, id, r);
      case OnAction(a) => ActionPaid(w, id, a);
      case _ => BudgetWithout(w.drivers, id, c, c);
    }
  }

  lemma {:induction false} EventPaid(w: World, e: Event)
    requires Core(w) && Enabled(w, e)
    ensures Paid(w, e, Apply(w, e))
  {
    match e {
      case ClaimPlan(id) => BudgetClaimed(w.drivers, id, Driver(Top, None), w.plan.cancelRequested);
      case ByDriver(id, d) => DriverPaid(w, id, d);
      case Cancel => CancelledBudget(w.drivers, w.plan.cancelRequested, CancelCall(w.plan).cancelRequested);
      case _ =>
    }
  }

  // ----- Whole runs -----

  function RoundsOf(es: seq<Event>): nat {
    if es == [] then 0 else RoundsOf(es[..|es| - 1]) + Rounds(es[|es| - 1])
  }

  function ClaimsOf(es: seq<Event>): nat {
    if es == [] then 0 else ClaimsOf(es[..|es| - 1]) + Claims(es[|es| - 1])
  }

  lemma {:induction false} RoundsPaid(ws: seq<World>, es: seq<Event>)
    requires IsRun(ws, es)
    ensures RoundsOf(es) + BudgetOf(ws[|es|]) <= 2 * ClaimsOf(es) + Changes(ws)
    decreases |es|
  {
    if es == [] {
      assert Heads(ws[0].drivers) == {};
    } else {
      var k := |es| - 1;
      RunPrefix(ws, es);
      RoundsPaid(ws[..|ws| - 1], es[..k]);
      RunGood(ws, es, k);
      assert StepsTo(ws[k], es[k], ws[k + 1]);
      EventPaid(ws[k], es[k]);
    }
  }

  /** The outer loop is bounded: whatever happens, the drivers of a plan begin at most two
      rounds per claim and one per step change, and there are at most seven changes per step. */
  lemma {:induction false} OuterLoopBounded(ws: seq<World>, es: seq<Event>)
    requires IsRun(ws, es)
    ensures RoundsOf(es) <= 2 * ClaimsOf(es) + 7 * |ws[0].plan.steps|
  {
    RoundsPaid(ws, es);
    WorkBoundsChanges(ws, es);
  }
}
