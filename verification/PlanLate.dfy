/** Drivers that mutate a plan after losing it, which the code does not prevent: what they
    cannot break, a run in which one does harm, and exactly which of their mutations are harmless. */
module PlanLate {
  import opened Base
  import opened PlanInvariants
  import opened PlanModel
  import opened PlanRuns
  import opened PlanSafety
  import G = PlanGraph

  // ----- What no lateness can break -----

  /** Children, operation records and starts about to spawn match one to one. */
  ghost predicate OneRunEach(w: World) {
    && (forall c | 0 <= c < |w.children| :: ChildRecorded(w, c))
    && (forall a, b | 0 <= a < b < |w.children| :: w.children[a].run != w.children[b].run)
    && (forall a, b | a in w.ops && b in w.ops && a != b :: w.ops[a] != w.ops[b])
    && (forall id | id in w.drivers :: AboutToSpawn(w, w.drivers[id].pc))
    && (forall a, b | a in w.drivers && b in w.drivers && a != b ::
          w.drivers[a].pc.Claimed? && w.drivers[b].pc.Claimed? ==> w.drivers[a].pc.run != w.drivers[b].pc.run)
  }

  ghost predicate AboutToSpawn(w: World, pc: Pc) {
    pc.Claimed? ==>
      KeyOf(pc.step) in w.ops && w.ops[KeyOf(pc.step)] == pc.run && Unspawned(w.children, pc.run)
  }

  /** Nothing is claimed or spawned, and no driver comes to be about to spawn. */
  ghost predicate SpawnsNothing(w: World, w': World) {
    && w'.ops == w.ops && w'.children == w.children
    && forall d | d in w'.drivers && w'.drivers[d].pc.Claimed? ::
         d in w.drivers && w'.drivers[d].pc == w.drivers[d].pc
  }

  lemma {:induction false} NoSpawn(w: World, w': World)
    requires OneRunEach(w) && SpawnsNothing(w, w')
    ensures OneRunEach(w')
  {
    forall c | 0 <= c < |w'.children| ensures ChildRecorded(w', c) {
      assert ChildRecorded(w, c);
    }
    forall d | d in w'.drivers ensures AboutToSpawn(w', w'.drivers[d].pc) {
      assert d in w.drivers ==> AboutToSpawn(w, w.drivers[d].pc);
    }
  }

  lemma {:induction false} ResumeSpawnsNothing(w: World, id: string, q: Plan, next: Next)
    requires id in w.drivers && (next.Start? || next.Poll? || next.Act? ==> next.i < |q.steps|)
    ensures SpawnsNothing(w, Resume(w, id, q, next))
  {
  }

  lemma {:induction false} LoopSpawnsNothing(w: World, id: string)
    requires id in w.drivers
    ensures SpawnsNothing(w, Looped(w, id))
  {
    if Owns(w.plan, id) {
      var r := Renewed(w, id);
      var (q, next) := DriveOwned(r.plan, w.taskCompleted);
      ResumeSpawnsNothing(r, id, q, next);
    }
  }

  lemma {:induction false} StartSpawnsNothing(w: World, id: string, s: StartEvent)
    requires id in w.drivers && StartEnabled(w, id, s) && !s.ClaimKey? && !s.Spawn?
    ensures SpawnsNothing(w, AfterStart(w, id, s))
  {
    var pc := w.drivers[id].pc;
    match s {
      case NeedApproval(user) => ResumeSpawnsNothing(w, id, ApprovalNeeded(w.plan, pc.step, user), Return);
      case SaveStart => ResumeSpawnsNothing(w, id, RecordStart(w.plan, pc.i, pc.run), Poll(pc.i));
      case Replay =>
    }
  }

  lemma {:induction false} RunSpawnsNothing(w: World, id: string, r: RunEvent)
    requires id in w.drivers && RunEnabled(w, id, r)
    ensures SpawnsNothing(w, AfterRun(w, id, r))
  {
    var pc := w.drivers[id].pc;
    if r.SettleRunEnd? {
      var (q, next) := SettleRun(w.plan, pc.i, pc.step, pc.t);
      ResumeSpawnsNothing(w, id, q, next);
    }
  }

  lemma {:induction false} ActionSpawnsNothing(w: World, id: string, a: ActionEvent)
    requires id in w.drivers && ActionEnabled(w, id, a)
    ensures SpawnsNothing(w, AfterAction(w, id, a))
  {
    var pc := w.drivers[id].pc;
    match a {
      case ReadHead => ResumeSpawnsNothing(w, id, BeginCommit(w.plan, pc.i, w.head), Loop);
      case SettleActionEnd(ok) =>
        var (q, next) := SettleAction(w.plan, pc.i, pc.step, ok);
        ResumeSpawnsNothing(w, id, q, next);
      case _ =>
    }
  }

  lemma {:induction false} DriverSpawnsNothing(w: World, id: string, d: DriverEvent)
    requires id in w.drivers && DriverEnabled(w, id, d)
    requires d.OnStart? ==> !d.s.ClaimKey? && !d.s.Spawn?
    ensures SpawnsNothing(w, AfterDriver(w, id, d))
  {
    match d {
      case DriveLoop => LoopSpawnsNothing(w, id);
      case OnStart(s) => StartSpawnsNothing(w, id, s);
      case OnRun(r) => RunSpawnsNothing(w, id, r);
      case OnAction(a) => ActionSpawnsNothing(w, id, a);
      case FailDriver => ResumeSpawnsNothing(w, id, DriverFailure(w.plan), Return);
      case Crash =>
    }
  }

  lemma {:induction false} RunUnused(w: World, run: string)
    requires OneRunEach(w) && run !in w.ops.Values
    ensures Unspawned(w.children, run)
    ensures forall d | d in w.drivers && w.drivers[d].pc.Claimed? :: w.drivers[d].pc.run != run
  {
    forall c | 0 <= c < |w.children| ensures w.children[c].run != run {
      assert ChildRecorded(w, c);
    }
    forall d | d in w.drivers && w.drivers[d].pc.Claimed? ensures w.drivers[d].pc.run != run {
      assert AboutToSpawn(w, w.drivers[d].pc);
    }
  }

  lemma {:induction false} ClaimKeepsRuns(w: World, id: string, run: string)
    requires OneRunEach(w) && id in w.drivers && StartEnabled(w, id, ClaimKey(run))
    ensures OneRunEach(AfterStart(w, id, ClaimKey(run)))
  {
    var w' := AfterStart(w, id, ClaimKey(run));
    RunUnused(w, run);
    forall c | 0 <= c < |w'.children| ensures ChildRecorded(w', c) {
      assert ChildRecorded(w, c);
    }
    forall d | d in w'.drivers ensures AboutToSpawn(w', w'.drivers[d].pc) {
      assert AboutToSpawn(w, w.drivers[d].pc);
    }
  }

  lemma {:induction false} SpawnKeepsRuns(w: World, id: string)
    requires OneRunEach(w) && id in w.drivers && StartEnabled(w, id, Spawn)
    ensures OneRunEach(AfterStart(w, id, Spawn))
  {
    var w' := AfterStart(w, id, Spawn);
    assert AboutToSpawn(w, w.drivers[id].pc);
    forall c | 0 <= c < |w'.children| ensures ChildRecorded(w', c) {
      assert c < |w.children| ==> ChildRecorded(w, c);
    }
    forall d | d in w'.drivers ensures AboutToSpawn(w', w'.drivers[d].pc) {
      assert AboutToSpawn(w, w.drivers[d].pc);
    }
  }

  lemma {:induction false} StepKeepsRuns(w: World, e: Event)
    requires OneRunEach(w) && Possible(w, e)
    ensures OneRunEach(Apply(w, e))
  {
    if e.ByDriver? && e.d.OnStart? && e.d.s.ClaimKey? {
      ClaimKeepsRuns(w, e.who, e.d.s.run);
    } else if e.ByDriver? && e.d.OnStart? && e.d.s.Spawn? {
      SpawnKeepsRuns(w, e.who);
    } else {
      if e.ByDriver? {
        DriverSpawnsNothing(w, e.who, e.d);
      }
      NoSpawn(w, Apply(w, e));
    }
  }

  lemma {:induction false} LooseRunKeepsRuns(ws: seq<World>, es: seq<Event>, k: nat)
    requires IsLooseRun(ws, es) && k < |ws|
    ensures OneRunEach(ws[k])
  {
    if k > 0 {
      LooseRunKeepsRuns(ws, es, k - 1);
      assert LooseStep(ws[k - 1], es[k - 1], ws[k]);
      StepKeepsRuns(ws[k - 1], es[k - 1]);
    }
  }

  /** However late and however many the drivers are, each attempt of a step spawns at most one child. */
  lemma {:induction false} OneChildPerAttempt(ws: seq<World>, es: seq<Event>, k: nat, a: nat, b: nat)
    requires IsLooseRun(ws, es) && k < |ws| && a < b < |ws[k].children|
    ensures ws[k].children[a].op != ws[k].children[b].op
  {
    LooseRunKeepsRuns(ws, es, k);
    assert ChildRecorded(ws[k], a) && ChildRecorded(ws[k], b);
  }

  // ----- A late settlement that does harm -----

  ghost predicate EndsIn(ws: seq<World>, es: seq<Event>, w: World) {
    IsRun(ws, es) && ws[|es|] == w
  }

  ghost predicate Reachable(w: World) {
    exists ws, es :: EndsIn(ws, es, w)
  }

  ghost predicate LooselyEndsIn(ws: seq<World>, es: seq<Event>, w: World) {
    IsLooseRun(ws, es) && ws[|es|] == w
  }

  ghost predicate LooselyReachable(w: World) {
    exists ws, es :: LooselyEndsIn(ws, es, w)
  }

  lemma {:induction false} ReachStart(w: World)
    requires Init(w)
    ensures Reachable(w)
  {
    assert EndsIn([w], [], w);
  }

  lemma {:induction false} ReachNext(w: World, e: Event)
    requires Reachable(w) && Enabled(w, e)
    ensures Reachable(Apply(w, e))
  {
    var ws, es :| EndsIn(ws, es, w);
    var vs, fs := ws + [Apply(w, e)], es + [e];
    forall k | 0 <= k < |fs| ensures StepsTo(vs[k], fs[k], vs[k + 1]) {
      if k < |es| {
        assert StepsTo(ws[k], es[k], ws[k + 1]);
      }
    }
    assert EndsIn(vs, fs, Apply(w, e));
  }

  /** A guarded run may be continued by one step that nothing guards. */
  lemma {:induction false} ReachLoosely(w: World, e: Event)
    requires Reachable(w) && Possible(w, e)
    ensures LooselyReachable(Apply(w, e))
  {
    var ws, es :| EndsIn(ws, es, w);
    var vs, fs := ws + [Apply(w, e)], es + [e];
    forall k | 0 <= k < |fs| ensures LooseStep(vs[k], fs[k], vs[k + 1]) {
      if k < |es| {
        assert StepsTo(ws[k], es[k], ws[k + 1]);
      }
    }
    assert LooselyEndsIn(vs, fs, Apply(w, e));
  }

  function Finishing(status: StepStatus): Step {
    Step("finish", TaskFinish, [], "finish", {}, 1, false, status, None, 0, None, None)
  }

  /** A plan whose only step finishes the Task, and the drivers at work on it. */
  function Finisher(status: PlanStatus, step: StepStatus, driver: Option<string>, lease: Option<int>, now: nat,
                    drivers: map<string, Driver>, done: bool): World
  {
    World(Plan(status, [Finishing(step)], driver, lease, false, None), now, drivers, map[], [], "head", false, [], done)
  }

  lemma {:induction false} FinisherStarts()
    ensures Reachable(Finisher(Active, Pending, None, None, 0, map[], false))
  {
    var w := Finisher(Active, Pending, None, None, 0, map[], false);
    var g := GraphOf(w.plan.steps);
    assert g == [G.Node("finish", [])];
    G.TopologicalOrderExcludesCycles(g, ["finish"]);
    ReachStart(w);
  }

  /** The first driver with its snapshot, and the second one between its claim and its settlement. */
  function First(): Driver {
    Driver(ReadingHead(0, Finishing(Pending)), Some(0))
  }

  function Taken(pc: Pc, renewedAt: Option<nat>, step: StepStatus, done: bool): World {
    Finisher(Active, step, Some("b"), Some(6000), 3000, map["a" := First(), "b" := Driver(pc, renewedAt)], done)
  }

  lemma {:induction false} FirstDriverClaims()
    ensures Reachable(Finisher(Active, Pending, Some("a"), Some(3000), 0, map["a" := Driver(Top, None)], false))
  {
    FinisherStarts();
    var w := Finisher(Active, Pending, None, None, 0, map[], false);
    ReachNext(w, ClaimPlan("a"));
    assert Apply(w, ClaimPlan("a"))
        == Finisher(Active, Pending, Some("a"), Some(3000), 0, map["a" := Driver(Top, None)], false);
  }

  lemma {:induction false} LoopHandsOut(p: Plan, taskCompleted: bool)
    requires p.steps == [Finishing(Pending)] && !p.cancelRequested
    ensures DriveOwned(p, taskCompleted) == (p, Act(0))
  {
    assert NextStep(p.steps) == 0;
  }

  lemma {:induction false} LoopCompletes(p: Plan)
    requires p.steps == [Finishing(Passed)] && !p.cancelRequested
    ensures DriveOwned(p, true) == (CompletePlan(p, true), Return)
  {
    assert NextStep(p.steps) == 1 && !AnyPending(p.steps);
  }

  lemma {:induction false} FirstDriverReads()
    ensures Reachable(Finisher(Active, Pending, Some("a"), Some(3000), 0, map["a" := First()], false))
  {
    FirstDriverClaims();
    var w := Finisher(Active, Pending, Some("a"), Some(3000), 0, map["a" := Driver(Top, None)], false);
    ReachNext(w, ByDriver("a", DriveLoop));
    LoopHandsOut(w.plan, false);
    assert Looped(w, "a") == Finisher(Active, Pending, Some("a"), Some(3000), 0, map["a" := First()], false);
  }

  /** The first driver pauses until its lease has expired, and the second one takes the plan over. */
  lemma {:induction false} SecondDriverClaims()
    ensures Reachable(Taken(Top, None, Pending, false))
  {
    FirstDriverReads();
    var w0 := Finisher(Active, Pending, Some("a"), Some(3000), 0, map["a" := First()], false);
    ReachNext(w0, Tick(3000));
    var w := Finisher(Active, Pending, Some("a"), Some(3000), 3000, map["a" := First()], false);
    assert Apply(w0, Tick(3000)) == w;
    ReachNext(w, ClaimPlan("b"));
    assert Apply(w, ClaimPlan("b")) == Taken(Top, None, Pending, false);
  }

  lemma {:induction false} SecondDriverReads()
    ensures Reachable(Taken(ReadingHead(0, Finishing(Pending)), Some(3000), Pending, false))
  {
    SecondDriverClaims();
    var w := Taken(Top, None, Pending, false);
    ReachNext(w, ByDriver("b", DriveLoop));
    LoopHandsOut(w.plan, false);
    assert Looped(w, "b") == Taken(ReadingHead(0, Finishing(Pending)), Some(3000), Pending, false);
  }

  lemma {:induction false} SecondDriverFinishes()
    ensures Reachable(Taken(Acted(0, Finishing(Pending), true), Some(3000), Pending, true))
  {
    SecondDriverReads();
    var w := Taken(ReadingHead(0, Finishing(Pending)), Some(3000), Pending, false);
    ReachNext(w, ByDriver("b", OnAction(FinishTask(true))));
    assert AfterAction(w, "b", FinishTask(true))
        == Taken(Acted(0, Finishing(Pending), true), Some(3000), Pending, true);
  }

  lemma {:induction false} SecondDriverSettles()
    ensures Reachable(Taken(Top, Some(3000), Passed, true))
  {
    SecondDriverFinishes();
    var w := Taken(Acted(0, Finishing(Pending), true), Some(3000), Pending, true);
    ReachNext(w, ByDriver("b", OnAction(SettleActionEnd(true))));
    assert ActionSettled(w, "b", true) == Taken(Top, Some(3000), Passed, true);
  }

  function Done(): World {
    Finisher(Completed, Passed, Some("b"), Some(6000), 3000, map["a" := First()], true)
  }

  lemma {:induction false} SecondDriverCompletes()
    ensures Reachable(Done())
  {
    SecondDriverSettles();
    var w := Taken(Top, Some(3000), Passed, true);
    ReachNext(w, ByDriver("b", DriveLoop));
    LoopCompletes(w.plan);
    assert w.drivers - {"b"} == Done().drivers;
    assert Looped(w, "b") == Done();
  }

  lemma {:induction false} FirstDriverFails() returns (w: World)
    ensures w == Done().(drivers := map["a" := Driver(Acted(0, Finishing(Pending), false), Some(0))])
    ensures Reachable(w)
  {
    SecondDriverCompletes();
    var e := ByDriver("a", OnAction(FinishTask(false)));
    ReachNext(Done(), e);
    w := AfterAction(Done(), "a", FinishTask(false));
  }

  /** What the missing check costs: in a world that guarded steps alone reach, one settlement by
      a driver that no longer owns the plan turns a passed step of a completed plan into a
      failed one and the plan into one that waits for repair. */
  lemma {:induction false} LateSettlementUndoes() returns (w: World, e: Event)
    ensures Reachable(w) && Possible(w, e) && e.ByDriver? && e.who in w.drivers && !Owns(w.plan, e.who)
    ensures LooselyReachable(Apply(w, e))
    ensures w.plan.status == Completed && w.plan.steps == [Finishing(Passed)]
    ensures Apply(w, e).plan.status == AwaitingAssistant && Apply(w, e).plan.steps == [Finishing(Failed)]
  {
    w := FirstDriverFails();
    e := ByDriver("a", OnAction(SettleActionEnd(false)));
    ReachLoosely(w, e);
    assert Apply(w, e) == ActionSettled(w, "a", false);
  }

  // ----- A late start of a commit step -----

  function CommitStep(status: StepStatus, attempts: nat, startedHead: Option<string>): Step {
    Step("commit", GitCommit, [], "commit", {}, 2, false, status, None, attempts, None, startedHead)
  }

  /** A plan whose only step commits what is in the worktree. */
  function Committer(step: Step, driver: Option<string>, now: nat, drivers: map<string, Driver>,
                     head: string, dirty: bool, commits: seq<Commit>): World
  {
    var lease := if driver.None? then None else Some(now + DRIVER_LEASE_MS);
    World(Plan(Active, [step], driver, lease, false, None), now, drivers, map[], [], head, dirty, commits, false)
  }

  /** A driver that has been handed the step while it was pending. */
  function Handed(renewedAt: nat): Driver {
    Driver(ReadingHead(0, CommitStep(Pending, 0, None)), Some(renewedAt))
  }

  /** The second driver has taken the plan over from the first. */
  function Over(step: Step, pc: Pc, renewedAt: Option<nat>, head: string, dirty: bool, commits: seq<Commit>): World {
    Committer(step, Some("b"), 3000, map["a" := Handed(0), "b" := Driver(pc, renewedAt)], head, dirty, commits)
  }

  function Begun(): Step {
    CommitStep(Running, 1, Some("h0"))
  }

  lemma {:induction false} LoopHandsOutCommit(p: Plan)
    requires p.steps == [CommitStep(Pending, 0, None)] && !p.cancelRequested
    ensures DriveOwned(p, false) == (p, Act(0))
  {
    assert NextStep(p.steps) == 0;
  }

  lemma {:induction false} CommitterStarts()
    ensures Reachable(Committer(CommitStep(Pending, 0, None), None, 0, map[], "h0", true, []))
  {
    var w := Committer(CommitStep(Pending, 0, None), None, 0, map[], "h0", true, []);
    var g := GraphOf(w.plan.steps);
    assert g == [G.Node("commit", [])];
    G.TopologicalOrderExcludesCycles(g, ["commit"]);
    ReachStart(w);
  }

  lemma {:induction false} CommitClaimed()
    ensures Reachable(Committer(CommitStep(Pending, 0, None), Some("a"), 0,
                                map["a" := Driver(Top, None)], "h0", true, []))
  {
    CommitterStarts();
    var w := Committer(CommitStep(Pending, 0, None), None, 0, map[], "h0", true, []);
    ReachNext(w, ClaimPlan("a"));
    assert Apply(w, ClaimPlan("a")).drivers == map["a" := Driver(Top, None)];
  }

  lemma {:induction false} CommitHanded()
    ensures Reachable(Committer(CommitStep(Pending, 0, None), Some("a"), 0, map["a" := Handed(0)], "h0", true, []))
  {
    CommitClaimed();
    var w := Committer(CommitStep(Pending, 0, None), Some("a"), 0, map["a" := Driver(Top, None)], "h0", true, []);
    ReachNext(w, ByDriver("a", DriveLoop));
    LoopHandsOutCommit(w.plan);
    assert Looped(w, "a").drivers == map["a" := Handed(0)];
  }

  lemma {:induction false} CommitTaken()
    ensures Reachable(Over(CommitStep(Pending, 0, None), Top, None, "h0", true, []))
  {
    CommitHanded();
    var w0 := Committer(CommitStep(Pending, 0, None), Some("a"), 0, map["a" := Handed(0)], "h0", true, []);
    ReachNext(w0, Tick(3000));
    var w := w0.(now := 3000);
    assert Apply(w0, Tick(3000)) == w;
    ReachNext(w, ClaimPlan("b"));
    assert Apply(w, ClaimPlan("b")) == Over(CommitStep(Pending, 0, None), Top, None, "h0", true, []);
  }

  lemma {:induction false} CommitHandedAgain()
    ensures Reachable(Over(CommitStep(Pending, 0, None), Handed(3000).pc, Some(3000), "h0", true, []))
  {
    CommitTaken();
    var w := Over(CommitStep(Pending, 0, None), Top, None, "h0", true, []);
    ReachNext(w, ByDriver("b", DriveLoop));
    LoopHandsOutCommit(w.plan);
    assert RenewDriver(w.plan, "b", 3000) == w.plan;
    assert Looped(w, "b").drivers == map["a" := Handed(0), "b" := Handed(3000)];
  }

  lemma {:induction false} CommitBegun()
    ensures Reachable(Over(Begun(), Diffing(0, Begun(), "h0"), Some(3000), "h0", true, []))
  {
    CommitHandedAgain();
    var w := Over(CommitStep(Pending, 0, None), Handed(3000).pc, Some(3000), "h0", true, []);
    ReachNext(w, ByDriver("b", OnAction(ReadHead)));
    assert HeadRead(w, "b") == Over(Begun(), Diffing(0, Begun(), "h0"), Some(3000), "h0", true, []);
  }

  lemma {:induction false} CommitMadeOnce()
    ensures Reachable(Over(Begun(), Acted(0, Begun(), true), Some(3000), "h1", false, [Commit(0, "h0", "h1")]))
  {
    CommitBegun();
    var w := Over(Begun(), Diffing(0, Begun(), "h0"), Some(3000), "h0", true, []);
    ReachNext(w, ByDriver("b", OnAction(MakeCommit("h1"))));
    assert Committed(w, "b", "h1")
        == Over(Begun(), Acted(0, Begun(), true), Some(3000), "h1", false, [Commit(0, "h0", "h1")]);
  }

  /** The second driver dies between making the commit and recording it. */
  lemma {:induction false} CommitUnrecorded()
    ensures Reachable(Committer(Begun(), Some("b"), 3000, map["a" := Handed(0)], "h1", false, [Commit(0, "h0", "h1")]))
  {
    CommitMadeOnce();
    var w := Over(Begun(), Acted(0, Begun(), true), Some(3000), "h1", false, [Commit(0, "h0", "h1")]);
    ReachNext(w, ByDriver("b", Crash));
    assert w.drivers - {"b"} == map["a" := Handed(0)];
    assert Drop(w, "b")
        == Committer(Begun(), Some("b"), 3000, map["a" := Handed(0)], "h1", false, [Commit(0, "h0", "h1")]);
  }

  /** What the missing check costs a commit: in a world that guarded steps alone reach, a late driver
      that begins the step anew writes the commit's own head over the one it started from. Whoever
      drives the step next takes the commit that was made for absent. */
  lemma {:induction false} LateBeginForgetsCommit() returns (w: World, e: Event)
    ensures Reachable(w) && Possible(w, e) && e.ByDriver? && e.who in w.drivers && !Owns(w.plan, e.who)
    ensures LooselyReachable(Apply(w, e))
    ensures w.commits == [Commit(0, "h0", "h1")] && w.plan.steps == [CommitStep(Running, 1, Some("h0"))]
    ensures Apply(w, e).commits == w.commits && Apply(w, e).plan.steps == [CommitStep(Running, 2, Some("h1"))]
    ensures Apply(w, e).head == "h1" && !Apply(w, e).dirty
    ensures forall v: World, d: string, sha: string
      | v.plan.steps == Apply(w, e).plan.steps && v.head == "h1" && !v.dirty && TakesOver(v, d) ::
      Committed(v, d, sha).drivers[d].pc == Acted(0, CommitStep(Running, 2, Some("h1")), false)
  {
    CommitUnrecorded();
    w := Committer(Begun(), Some("b"), 3000, map["a" := Handed(0)], "h1", false, [Commit(0, "h0", "h1")]);
    e := ByDriver("a", OnAction(ReadHead));
    ReachLoosely(w, e);
    assert Apply(w, e) == HeadRead(w, "a");
  }

  /** A driver that has read the head and the stored step, and looks for changes. */
  ghost predicate TakesOver(w: World, d: string) {
    d in w.drivers && w.plan.steps != [] && w.drivers[d].pc == Diffing(0, w.plan.steps[0], w.head)
  }
}
