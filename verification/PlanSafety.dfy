/** What whole runs of a plan guarantee: at most one child per attempt, exactly
    one commit per passed commit step, bounded work, and final states that stay. */
module PlanSafety {
  import opened Base
  import opened PlanModel
  import opened PlanInvariants
  import opened PlanRuns

  // ----- Starting a run -----

  /** A start in progress works on a snapshot that may be old, never ahead. */
  ghost predicate Snapshot(steps: seq<Step>, i: nat, step: Step) {
    && i < |steps| && SameSpec(step, steps[i])
    && step.attempts < step.maxAttempts && step.attempts <= steps[i].attempts
  }

  ghost predicate Unspawned(children: seq<Child>, run: string) {
    forall c | 0 <= c < |children| :: children[c].run != run
  }

  ghost predicate StartPc(w: World, pc: Pc) {
    match pc
    case Starting(i, step) => Snapshot(w.plan.steps, i, step)
    case Claimed(i, step, run) =>
      && Snapshot(w.plan.steps, i, step)
      && KeyOf(step) in w.ops && w.ops[KeyOf(step)] == run && Unspawned(w.children, run)
    case Launched(i, step, _) => Snapshot(w.plan.steps, i, step)
    case _ => true
  }

  /** An operation belongs to an attempt that a step may still make or has made. */
  ghost predicate OpOf(steps: seq<Step>, op: OpKey, i: nat) {
    && i < |steps| && steps[i].key == op.key
    && 1 <= op.attempt <= steps[i].maxAttempts && op.attempt <= steps[i].attempts + 1
  }

  ghost predicate OpKnown(steps: seq<Step>, op: OpKey) {
    exists i: nat :: OpOf(steps, op, i)
  }

  ghost predicate ChildRecorded(w: World, c: nat)
    requires c < |w.children|
  {
    w.children[c].op in w.ops && w.ops[w.children[c].op] == w.children[c].run
  }

  ghost predicate Starts(w: World) {
    && DistinctKeys(w.plan.steps)
    && (forall op | op in w.ops :: OpKnown(w.plan.steps, op))
    && (forall c | 0 <= c < |w.children| :: ChildRecorded(w, c))
    && (forall a, b | 0 <= a < b < |w.children| :: w.children[a].run != w.children[b].run)
    && (forall a, b | a in w.ops && b in w.ops && a != b :: w.ops[a] != w.ops[b])
    && (forall id | id in w.drivers :: StartPc(w, w.drivers[id].pc))
    && (forall a, b | a in w.drivers && b in w.drivers && a != b ::
          w.drivers[a].pc.Claimed? && w.drivers[b].pc.Claimed? ==> w.drivers[a].pc.run != w.drivers[b].pc.run)
  }

  lemma {:induction false} OpStaysKnown(steps: seq<Step>, steps': seq<Step>, op: OpKey)
    requires Advances(steps, steps') && OpKnown(steps, op)
    ensures OpKnown(steps', op)
  {
    var i: nat :| OpOf(steps, op, i);
    assert StepAdvances(steps[i], steps'[i]);
    assert OpOf(steps', op, i);
  }

  lemma {:induction false} StartPcStays(w: World, w': World, pc: Pc)
    requires Advances(w.plan.steps, w'.plan.steps) && w'.ops == w.ops && w'.children == w.children
    requires StartPc(w, pc)
    ensures StartPc(w', pc)
  {
  }

  lemma {:induction false} KeysStay(steps: seq<Step>, steps': seq<Step>)
    requires Advances(steps, steps') && DistinctKeys(steps)
    ensures DistinctKeys(steps')
  {
  }

  /** At most driver `id` moves, to a point that is not about to spawn. */
  lemma {:induction false} StartsFrame(w: World, w': World, id: string)
    requires Starts(w) && Advances(w.plan.steps, w'.plan.steps) && w'.ops == w.ops && w'.children == w.children
    requires forall d | d in w'.drivers && d != id :: d in w.drivers && w'.drivers[d].pc == w.drivers[d].pc
    requires id in w'.drivers ==>
      (id in w.drivers && w'.drivers[id].pc == w.drivers[id].pc) ||
      (StartPc(w', w'.drivers[id].pc) && !w'.drivers[id].pc.Claimed?)
    ensures Starts(w')
  {
    KeysStay(w.plan.steps, w'.plan.steps);
    forall op | op in w'.ops ensures OpKnown(w'.plan.steps, op) {
      OpStaysKnown(w.plan.steps, w'.plan.steps, op);
    }
    forall c | 0 <= c < |w'.children| ensures ChildRecorded(w', c) {
      assert ChildRecorded(w, c);
    }
    forall d | d in w'.drivers ensures StartPc(w', w'.drivers[d].pc) {
      if d in w.drivers && w'.drivers[d].pc == w.drivers[d].pc {
        StartPcStays(w, w', w.drivers[d].pc);
      }
    }
  }

  lemma {:induction false} RunIsNew(w: World, run: string)
    requires Starts(w) && run !in w.ops.Values
    ensures Unspawned(w.children, run)
    ensures forall d | d in w.drivers && w.drivers[d].pc.Claimed? :: w.drivers[d].pc.run != run
  {
    forall c | 0 <= c < |w.children| ensures w.children[c].run != run {
      assert ChildRecorded(w, c);
    }
    forall d | d in w.drivers && w.drivers[d].pc.Claimed? ensures w.drivers[d].pc.run != run {
      assert StartPc(w, w.drivers[d].pc);
    }
  }

  lemma {:induction false} ClaimKeyStarts(w: World, id: string, run: string)
    requires Starts(w) && id in w.drivers && StartEnabled(w, id, ClaimKey(run))
    requires Guarded(w, id, OnStart(ClaimKey(run)))
    ensures Starts(AfterStart(w, id, ClaimKey(run)))
  {
    var pc := w.drivers[id].pc;
    var w' := AfterStart(w, id, ClaimKey(run));
    assert StartPc(w, pc);
    assert OpOf(w.plan.steps, KeyOf(pc.step), pc.i);
    RunIsNew(w, run);
    forall c | 0 <= c < |w'.children| ensures ChildRecorded(w', c) {
      assert ChildRecorded(w, c);
    }
    forall d | d in w'.drivers ensures StartPc(w', w'.drivers[d].pc) {
      assert StartPc(w, w.drivers[d].pc);
    }
  }

  lemma {:induction false} SpawnStarts(w: World, id: string)
    requires Starts(w) && id in w.drivers && StartEnabled(w, id, Spawn) && Guarded(w, id, OnStart(Spawn))
    ensures Starts(AfterStart(w, id, Spawn))
  {
    var pc := w.drivers[id].pc;
    var w' := AfterStart(w, id, Spawn);
    assert StartPc(w, pc);
    forall c | 0 <= c < |w'.children| ensures ChildRecorded(w', c) {
      if c < |w.children| {
        assert ChildRecorded(w, c);
      }
    }
    forall d | d in w'.drivers ensures StartPc(w', w'.drivers[d].pc) {
      assert StartPc(w, w.drivers[d].pc);
    }
  }

  lemma {:induction false} ResumeStarts(w: World, id: string, q: Plan, next: Next)
    requires Starts(w) && id in w.drivers && Advances(w.plan.steps, q.steps)
    requires next.Start? || next.Poll? || next.Act? ==> next.i < |q.steps|
    requires next.Start? ==> q.steps[next.i].attempts < q.steps[next.i].maxAttempts
    ensures Starts(Resume(w, id, q, next))
  {
    StartsFrame(w, Resume(w, id, q, next), id);
  }

  lemma {:induction false} GotoStarts(w: World, id: string, pc: Pc)
    requires Starts(w) && id in w.drivers && StartPc(w, pc) && !pc.Claimed?
    ensures Starts(Goto(w, id, pc))
  {
    StartsFrame(w, Goto(w, id, pc), id);
  }

  /** Only the API or the clock acts: steps advance, drivers stay, or one arrives at the loop head. */
  lemma {:induction false} CallStarts(w: World, w': World, id: string)
    requires Starts(w) && Advances(w.plan.steps, w'.plan.steps) && w'.ops == w.ops && w'.children == w.children
    requires w'.drivers == w.drivers || w'.drivers == w.drivers - {id}
             || w'.drivers == w.drivers[id := Driver(Top, None)]
    ensures Starts(w')
  {
    StartsFrame(w, w', id);
  }

  lemma {:induction false} LoopStarts(w: World, id: string)
    requires Core(w) && Starts(w) && id in w.drivers
    ensures Starts(Looped(w, id))
  {
    if !Owns(w.plan, id) {
      StartsFrame(w, Drop(w, id), id);
    } else {
      var r := Renewed(w, id);
      RenewedCore(w, id);
      StartsFrame(w, r, id);
      DriveOwnedOk(r.plan, id, w.taskCompleted);
      var (q, next) := DriveOwned(r.plan, w.taskCompleted);
      assert next.Start? ==> StepOk(q.steps[next.i]);
      ResumeStarts(r, id, q, next);
    }
  }

  lemma {:induction false} StartStarts(w: World, id: string, s: StartEvent)
    requires Core(w) && Starts(w) && id in w.drivers && StartEnabled(w, id, s) && Guarded(w, id, OnStart(s))
    ensures Starts(AfterStart(w, id, s))
  {
    var pc := w.drivers[id].pc;
    match s {
      case Replay =>
        assert StartPc(w, pc);
        GotoStarts(w, id, Launched(pc.i, pc.step, w.ops[KeyOf(pc.step)]));
      case ClaimKey(run) => ClaimKeyStarts(w, id, run);
      case Spawn => SpawnStarts(w, id);
      case NeedApproval(user) =>
        OwnerFresh(w, id);
        ApprovalOk(w.plan, pc.i, user);
        ResumeStarts(w, id, ApprovalNeeded(w.plan, pc.step, user), Return);
      case SaveStart =>
        OwnerFresh(w, id);
        RecordStartOk(w.plan, pc.i, pc.run);
        ResumeStarts(w, id, RecordStart(w.plan, pc.i, pc.run), Poll(pc.i));
    }
  }

  lemma {:induction false} RenewedStarts(w: World, id: string)
    requires Core(w) && Starts(w) && id in w.drivers && Owns(w.plan, id)
    ensures Core(Renewed(w, id)) && Starts(Renewed(w, id))
  {
    RenewedCore(w, id);
    StartsFrame(w, Renewed(w, id), id);
  }

  lemma {:induction false} RenewedPollStarts(w: World, id: string)
    requires Core(w) && Starts(w) && id in w.drivers && w.drivers[id].pc.Polling? && Owns(w.plan, id)
    ensures Starts(Goto(Renewed(w, id), id, AskingStatus(w.drivers[id].pc.i, w.drivers[id].pc.step)))
  {
    var pc := w.drivers[id].pc;
    RenewedStarts(w, id);
    GotoStarts(Renewed(w, id), id, AskingStatus(pc.i, pc.step));
  }

  lemma {:induction false} PollStarts(w: World, id: string)
    requires Core(w) && Starts(w) && id in w.drivers && w.drivers[id].pc.Polling?
    ensures Starts(Polled(w, id))
  {
    if w.plan.cancelRequested {
      GotoStarts(w, id, Top);
    } else if !Owns(w.plan, id) {
      StartsFrame(w, Drop(w, id), id);
    } else {
      RenewedPollStarts(w, id);
    }
  }

  lemma {:induction false} RunStarts(w: World, id: string, r: RunEvent)
    requires Core(w) && Starts(w) && id in w.drivers && RunEnabled(w, id, r) && Guarded(w, id, OnRun(r))
    ensures Starts(AfterRun(w, id, r))
  {
    var pc := w.drivers[id].pc;
    match r {
      case PollRun => PollStarts(w, id);
      case StillActive => GotoStarts(w, id, Polling(pc.i, pc.step));
      case RunEnded(t) => GotoStarts(w, id, Settling(pc.i, pc.step, t));
      case SaveEvidence => GotoStarts(w, id, Top);
      case SettleRunEnd =>
        OwnerFresh(w, id);
        SettleRunOk(w.plan, pc.i, pc.t);
        var (q, next) := SettleRun(w.plan, pc.i, pc.step, pc.t);
        ResumeStarts(w, id, q, next);
    }
  }

  lemma {:induction false} HeadReadStarts(w: World, id: string)
    requires Core(w) && Starts(w) && id in w.drivers && ActionEnabled(w, id, ReadHead)
    requires Guarded(w, id, OnAction(ReadHead))
    ensures Starts(HeadRead(w, id))
  {
    var pc := w.drivers[id].pc;
    OwnerFresh(w, id);
    if pc.step.status == Pending {
      BeginCommitOk(w.plan, pc.i, w.head);
      var q := BeginCommit(w.plan, pc.i, w.head);
      ResumeStarts(w, id, q, Loop);
      GotoStarts(Resume(w, id, q, Loop), id, Diffing(pc.i, q.steps[pc.i], w.head));
    } else {
      GotoStarts(w, id, Diffing(pc.i, pc.step, w.head));
    }
  }

  /** The driver has acted on the worktree or the Task, and the plan is as it was. */
  lemma {:induction false} SidewaysStarts(w: World, id: string, w': World)
    requires Starts(w) && id in w.drivers && w'.plan == w.plan && w'.ops == w.ops && w'.children == w.children
    requires id in w'.drivers && w'.drivers[id].pc.Acted? && w'.drivers == w.drivers[id := w'.drivers[id]]
    ensures Starts(w')
  {
    StartsFrame(w, w', id);
  }

  lemma {:induction false} ActionSettledStarts(w: World, id: string, ok: bool)
    requires Core(w) && Starts(w) && id in w.drivers && w.drivers[id].pc.Acted? && w.drivers[id].pc.i < |w.plan.steps|
    requires Owns(w.plan, id)
    ensures Starts(ActionSettled(w, id, ok))
  {
    var pc := w.drivers[id].pc;
    OwnerFresh(w, id);
    SettleActionOk(w.plan, pc.i, ok);
    var (q, next) := SettleAction(w.plan, pc.i, pc.step, ok);
    ResumeStarts(w, id, q, next);
  }

  lemma {:induction false} ActionStarts(w: World, id: string, a: ActionEvent)
    requires Core(w) && Starts(w) && id in w.drivers && ActionEnabled(w, id, a) && Guarded(w, id, OnAction(a))
    ensures Starts(AfterAction(w, id, a))
  {
    match a {
      case ReadHead => HeadReadStarts(w, id);
      case MakeCommit(sha) => SidewaysStarts(w, id, Committed(w, id, sha));
      case FinishTask(ok) => SidewaysStarts(w, id, AfterAction(w, id, a));
      case SettleActionEnd(ok) => ActionSettledStarts(w, id, ok);
    }
  }

  lemma {:induction false} DriverStarts(w: World, id: string, d: DriverEvent)
    requires Core(w) && Starts(w) && id in w.drivers && DriverEnabled(w, id, d) && Guarded(w, id, d)
    ensures Starts(AfterDriver(w, id, d))
  {
    match d {
      case Crash => CallStarts(w, Drop(w, id), id);
      case DriveLoop => LoopStarts(w, id);
      case FailDriver =>
        OwnerFresh(w, id);
        DriverFailureOk(w.plan);
        ResumeStarts(w, id, DriverFailure(w.plan), Return);
      case OnStart(s) => StartStarts(w, id, s);
      case OnRun(r) => RunStarts(w, id, r);
      case OnAction(a) => ActionStarts(w, id, a);
    }
  }

  lemma {:induction false} StepKeepsStarts(w: World, e: Event)
    requires Core(w) && Starts(w) && Enabled(w, e)
    ensures Starts(Apply(w, e))
  {
    match e {
      case ByDriver(id, d) => DriverStarts(w, id, d);
      case ClaimPlan(id) => CallStarts(w, Apply(w, e), id);
      case _ =>
        StepKeepsCore(w, e);
        CallStarts(w, Apply(w, e), "");
    }
  }

  /** The attempts for which a child was spawned under one step key. */
  function AttemptsOf(children: seq<Child>, key: string): (r: seq<nat>)
    ensures forall x | x in r :: exists c :: 0 <= c < |children| && children[c].op == OpKey(key, x)
  {
    if children == [] then []
    else
      var rest := AttemptsOf(children[..|children| - 1], key);
      var last := children[|children| - 1];
      if last.op.key == key then rest + [last.op.attempt] else rest
  }

  lemma {:induction false} AttemptsDistinct(children: seq<Child>, key: string)
    requires forall a, b | 0 <= a < b < |children| :: children[a].op != children[b].op
    ensures forall x, y | 0 <= x < y < |AttemptsOf(children, key)| ::
      AttemptsOf(children, key)[x] != AttemptsOf(children, key)[y]
  {
    if children != [] {
      var init := children[..|children| - 1];
      AttemptsDistinct(init, key);
      var last := children[|children| - 1];
      assert last.op.attempt in AttemptsOf(init, key) && last.op.key == key ==> last.op == OpKey(key, last.op.attempt);
    }
  }

  lemma {:induction false} DistinctInRange(s: seq<nat>, n: nat)
    requires forall x, y | 0 <= x < y < |s| :: s[x] != s[y]
    requires forall x | 0 <= x < |s| :: 1 <= s[x] <= n
    ensures |s| <= n
    decreases n
  {
    if s == [] {
      return;
    }
    assert 1 <= s[0] <= n;
    if k :| 0 <= k < |s| && s[k] == n {
      var t := s[..k] + s[k + 1..];
      forall x | 0 <= x < |t| ensures 1 <= t[x] <= n - 1 {
        assert t[x] == if x < k then s[x] else s[x + 1];
      }
      DistinctInRange(t, n - 1);
    } else {
      DistinctInRange(s, n - 1);
    }
  }

  /** Each attempt of a step spawns at most one child, and a step never more than its attempts allow. */
  lemma {:induction false} ChildrenBounded(w: World, i: nat)
    requires Starts(w) && i < |w.plan.steps|
    ensures forall a, b | 0 <= a < b < |w.children| :: w.children[a].op != w.children[b].op
    ensures |AttemptsOf(w.children, w.plan.steps[i].key)| <= w.plan.steps[i].maxAttempts
    ensures |AttemptsOf(w.children, w.plan.steps[i].key)| <= w.plan.steps[i].attempts + 1
  {
    var step := w.plan.steps[i];
    forall a, b | 0 <= a < b < |w.children| ensures w.children[a].op != w.children[b].op {
      assert ChildRecorded(w, a) && ChildRecorded(w, b);
    }
    var tries := AttemptsOf(w.children, step.key);
    AttemptsDistinct(w.children, step.key);
    forall x | 0 <= x < |tries|
      ensures 1 <= tries[x] <= step.maxAttempts && tries[x] <= step.attempts + 1
    {
      var c :| 0 <= c < |w.children| && w.children[c].op == OpKey(step.key, tries[x]);
      assert ChildRecorded(w, c);
      assert OpKnown(w.plan.steps, w.children[c].op);
      var j: nat :| OpOf(w.plan.steps, w.children[c].op, j);
      assert j == i;
    }
    DistinctInRange(tries, step.maxAttempts);
    DistinctInRange(tries, step.attempts + 1);
  }

  // ----- The commit step -----

  function CommitsOf(commits: seq<Commit>, i: nat): (r: seq<Commit>) {
    if commits == [] then []
    else
      var rest := CommitsOf(commits[..|commits| - 1], i);
      var last := commits[|commits| - 1];
      if last.step == i then rest + [last] else rest
  }

  lemma {:induction false} CommitsOfAppend(commits: seq<Commit>, c: Commit, i: nat)
    ensures CommitsOf(commits + [c], i) == if c.step == i then CommitsOf(commits, i) + [c] else CommitsOf(commits, i)
  {
  }

  ghost predicate OneCommitOn(commits: seq<Commit>, i: nat, parent: Option<string>) {
    |CommitsOf(commits, i)| == 1 && parent == Some(CommitsOf(commits, i)[0].parent)
  }

  ghost predicate CommitStepOk(w: World, i: nat)
    requires i < |w.plan.steps|
  {
    var s := w.plan.steps[i];
    s.action == GitCommit ==>
      && (s.status == Pending ==> CommitsOf(w.commits, i) == [])
      && (s.status == Running ==>
            || (CommitsOf(w.commits, i) == [] && s.startedHead == Some(w.head))
            || (OneCommitOn(w.commits, i, s.startedHead) && s.startedHead != Some(w.head) && !w.dirty))
      && (s.status == Passed ==> OneCommitOn(w.commits, i, s.startedHead))
  }

  ghost predicate CommitPc(w: World, pc: Pc) {
    match pc
    case Diffing(_, _, before) => before == w.head
    case Acted(i, step, ok) => step.action == GitCommit && ok ==> |CommitsOf(w.commits, i)| == 1
    case _ => true
  }

  ghost predicate Commits(w: World) {
    && (forall i | 0 <= i < |w.plan.steps| :: CommitStepOk(w, i))
    && (forall id | id in w.drivers && Owns(w.plan, id) :: CommitPc(w, w.drivers[id].pc))
  }

  /** A commit step is left alone, or ends without passing. */
  ghost predicate CommitStepsLeft(steps: seq<Step>, steps': seq<Step>) {
    && |steps| == |steps'|
    && forall i | 0 <= i < |steps| && steps[i].action == GitCommit :: CommitStepLeft(steps[i], steps'[i])
  }

  ghost predicate CommitStepLeft(s: Step, t: Step) {
    t == s || (t.action == GitCommit && (t.status == Failed || t.status == Cancelled || t.status == Interrupted))
  }

  /** Worktree and commit log untouched, commit steps left alone, and each owner's
      point is either an old one or not inside a commit. */
  lemma {:induction false} CommitsFrame(w: World, w': World)
    requires Commits(w) && CommitStepsLeft(w.plan.steps, w'.plan.steps)
    requires forall i | 0 <= i < |w.plan.steps| :: w'.plan.steps[i].action == w.plan.steps[i].action
    requires w'.head == w.head && w'.dirty == w.dirty && w'.commits == w.commits
    requires forall d | d in w'.drivers && Owns(w'.plan, d) ::
      (d in w.drivers && Owns(w.plan, d) && w'.drivers[d].pc == w.drivers[d].pc)
      || CommitPc(w', w'.drivers[d].pc)
    ensures Commits(w')
  {
    forall i | 0 <= i < |w'.plan.steps| ensures CommitStepOk(w', i) {
      assert CommitStepOk(w, i);
      if w.plan.steps[i].action == GitCommit {
        assert CommitStepLeft(w.plan.steps[i], w'.plan.steps[i]);
      }
    }
  }

  lemma {:induction false} ResumeCommits(w: World, id: string, q: Plan, next: Next)
    requires Core(w) && Commits(w) && id in w.drivers && Owns(w.plan, id)
    requires Advances(w.plan.steps, q.steps) && CommitStepsLeft(w.plan.steps, q.steps)
    requires next.Start? || next.Poll? || next.Act? ==> next.i < |q.steps|
    requires next == Return ==> q.status != Active
    requires next != Return ==> q.driver == w.plan.driver
    ensures Commits(Resume(w, id, q, next))
  {
    var w' := Resume(w, id, q, next);
    forall i | 0 <= i < |w.plan.steps| ensures w'.plan.steps[i].action == w.plan.steps[i].action {
      assert StepAdvances(w.plan.steps[i], q.steps[i]);
    }
    CommitsFrame(w, w');
  }

  lemma {:induction false} DriveOwnedLeavesCommits(p: Plan, taskCompleted: bool)
    ensures CommitStepsLeft(p.steps, DriveOwned(p, taskCompleted).0.steps)
  {
  }

  lemma {:induction false} LoopCommits(w: World, id: string)
    requires Core(w) && Commits(w) && id in w.drivers
    ensures Commits(Looped(w, id))
  {
    if !Owns(w.plan, id) {
      CommitsFrame(w, Drop(w, id));
    } else {
      var r := Renewed(w, id);
      RenewedCore(w, id);
      CommitsFrame(w, r);
      DriveOwnedOk(r.plan, id, w.taskCompleted);
      DriveOwnedLeavesCommits(r.plan, w.taskCompleted);
      DriveKeepsLease(r.plan, w.taskCompleted);
      var (q, next) := DriveOwned(r.plan, w.taskCompleted);
      ResumeCommits(r, id, q, next);
    }
  }

  lemma {:induction false} GotoCommits(w: World, id: string, pc: Pc)
    requires Commits(w) && id in w.drivers && CommitPc(w, pc)
    ensures Commits(Goto(w, id, pc))
  {
    CommitsFrame(w, Goto(w, id, pc));
  }

  lemma {:induction false} SaveStartCommits(w: World, id: string)
    requires Core(w) && Commits(w) && id in w.drivers && StartEnabled(w, id, SaveStart)
    requires Guarded(w, id, OnStart(SaveStart))
    ensures Commits(AfterStart(w, id, SaveStart))
  {
    var pc := w.drivers[id].pc;
    OwnerFresh(w, id);
    RecordStartOk(w.plan, pc.i, pc.run);
    ResumeCommits(w, id, RecordStart(w.plan, pc.i, pc.run), Poll(pc.i));
  }

  lemma {:induction false} ApprovalCommits(w: World, id: string, user: bool)
    requires Core(w) && Commits(w) && id in w.drivers && w.drivers[id].pc.Starting? && Owns(w.plan, id)
    ensures Commits(Resume(w, id, ApprovalNeeded(w.plan, w.drivers[id].pc.step, user), Return))
  {
    OwnerFresh(w, id);
    ResumeCommits(w, id, ApprovalNeeded(w.plan, w.drivers[id].pc.step, user), Return);
  }

  lemma {:induction false} StartCommits(w: World, id: string, s: StartEvent)
    requires Core(w) && Commits(w) && id in w.drivers && StartEnabled(w, id, s) && Guarded(w, id, OnStart(s))
    ensures Commits(AfterStart(w, id, s))
  {
    var pc := w.drivers[id].pc;
    match s {
      case Replay => GotoCommits(w, id, Launched(pc.i, pc.step, w.ops[KeyOf(pc.step)]));
      case ClaimKey(_) => CommitsFrame(w, AfterStart(w, id, s));
      case Spawn => CommitsFrame(w, AfterStart(w, id, s));
      case NeedApproval(user) => ApprovalCommits(w, id, user);
      case SaveStart => SaveStartCommits(w, id);
    }
  }

  lemma {:induction false} SettleLeavesCommits(p: Plan, i: nat, t: Terminal)
    requires i < |p.steps| && p.steps[i].action == Command
    ensures var (q, next) := SettleRun(p, i, p.steps[i], t);
      CommitStepsLeft(p.steps, q.steps) && (next != Return ==> q.driver == p.driver)
  {
  }

  lemma {:induction false} PollCommits(w: World, id: string)
    requires Core(w) && Commits(w) && id in w.drivers && w.drivers[id].pc.Polling?
    ensures Commits(Polled(w, id))
  {
    var pc := w.drivers[id].pc;
    if w.plan.cancelRequested {
      GotoCommits(w, id, Top);
    } else if !Owns(w.plan, id) {
      CommitsFrame(w, Drop(w, id));
    } else {
      CommitsFrame(w, Renewed(w, id));
      GotoCommits(Renewed(w, id), id, AskingStatus(pc.i, pc.step));
    }
  }

  lemma {:induction false} RunCommits(w: World, id: string, r: RunEvent)
    requires Core(w) && Commits(w) && id in w.drivers && RunEnabled(w, id, r) && Guarded(w, id, OnRun(r))
    ensures Commits(AfterRun(w, id, r))
  {
    var pc := w.drivers[id].pc;
    match r {
      case PollRun => PollCommits(w, id);
      case StillActive => GotoCommits(w, id, Polling(pc.i, pc.step));
      case RunEnded(t) => GotoCommits(w, id, Settling(pc.i, pc.step, t));
      case SaveEvidence => GotoCommits(w, id, Top);
      case SettleRunEnd =>
        OwnerFresh(w, id);
        SettleRunOk(w.plan, pc.i, pc.t);
        SettleLeavesCommits(w.plan, pc.i, pc.t);
        var (q, next) := SettleRun(w.plan, pc.i, pc.step, pc.t);
        ResumeCommits(w, id, q, next);
    }
  }

  lemma {:induction false} HeadReadCommits(w: World, id: string)
    requires Core(w) && Commits(w) && id in w.drivers && ActionEnabled(w, id, ReadHead)
    requires Guarded(w, id, OnAction(ReadHead))
    ensures Commits(HeadRead(w, id))
  {
    OwnerFresh(w, id);
    var pc := w.drivers[id].pc;
    var w' := HeadRead(w, id);
    forall i | 0 <= i < |w'.plan.steps| ensures CommitStepOk(w', i) {
      assert CommitStepOk(w, i);
    }
  }

  lemma {:induction false} CommittedCommits(w: World, id: string, sha: string)
    requires Core(w) && Commits(w) && id in w.drivers && ActionEnabled(w, id, MakeCommit(sha))
    requires Guarded(w, id, OnAction(MakeCommit(sha)))
    ensures Commits(Committed(w, id, sha))
  {
    OwnerFresh(w, id);
    var pc := w.drivers[id].pc;
    var w' := Committed(w, id, sha);
    assert CommitStepOk(w, pc.i) && CommitPc(w, pc);
    forall i | 0 <= i < |w'.plan.steps| ensures CommitStepOk(w', i) {
      assert CommitStepOk(w, i);
      CommitsOfAppend(w.commits, Commit(pc.i, w.head, sha), i);
    }
    forall d | d in w'.drivers && Owns(w'.plan, d) ensures CommitPc(w', w'.drivers[d].pc) {
      assert d == id;
      CommitsOfAppend(w.commits, Commit(pc.i, w.head, sha), pc.i);
    }
  }

  lemma {:induction false} ActionSettledCommits(w: World, id: string, ok: bool)
    requires Core(w) && Commits(w) && id in w.drivers && ActionEnabled(w, id, SettleActionEnd(ok))
    requires Guarded(w, id, OnAction(SettleActionEnd(ok)))
    ensures Commits(ActionSettled(w, id, ok))
  {
    OwnerFresh(w, id);
    var pc := w.drivers[id].pc;
    var w' := ActionSettled(w, id, ok);
    assert CommitPc(w, pc);
    forall i | 0 <= i < |w'.plan.steps| ensures CommitStepOk(w', i) {
      assert CommitStepOk(w, i);
    }
  }

  lemma {:induction false} ActionCommits(w: World, id: string, a: ActionEvent)
    requires Core(w) && Commits(w) && id in w.drivers && ActionEnabled(w, id, a) && Guarded(w, id, OnAction(a))
    ensures Commits(AfterAction(w, id, a))
  {
    match a {
      case ReadHead => HeadReadCommits(w, id);
      case MakeCommit(sha) => CommittedCommits(w, id, sha);
      case FinishTask(ok) => CommitsFrame(w, AfterAction(w, id, a));
      case SettleActionEnd(ok) => ActionSettledCommits(w, id, ok);
    }
  }

  lemma {:induction false} DriverCommits(w: World, id: string, d: DriverEvent)
    requires Core(w) && Commits(w) && id in w.drivers && DriverEnabled(w, id, d) && Guarded(w, id, d)
    ensures Commits(AfterDriver(w, id, d))
  {
    match d {
      case Crash => CommitsFrame(w, Drop(w, id));
      case DriveLoop => LoopCommits(w, id);
      case FailDriver =>
        OwnerFresh(w, id);
        ResumeCommits(w, id, DriverFailure(w.plan), Return);
      case OnStart(s) => StartCommits(w, id, s);
      case OnRun(r) => RunCommits(w, id, r);
      case OnAction(a) => ActionCommits(w, id, a);
    }
  }

  lemma {:induction false} ContinueCommits(w: World, id: string)
    requires Core(w) && Commits(w) && ContinueCall(w.plan, id).Ok?
    ensures Commits(w.(plan := ContinueCall(w.plan, id).value))
  {
    var k: nat :| StoppedAt(w.plan, k);
    FindsItself(w.plan.steps, k);
    CommitsFrame(w, w.(plan := ContinueCall(w.plan, id).value));
  }

  lemma {:induction false} TouchCommits(w: World, head: string, dirty: bool)
    requires Core(w) && Commits(w) && WorktreeQuiet(w)
    ensures Commits(w.(head := head, dirty := dirty))
  {
    var w' := w.(head := head, dirty := dirty);
    forall i | 0 <= i < |w'.plan.steps| ensures CommitStepOk(w', i) {
      assert CommitStepOk(w, i);
    }
    forall d | d in w'.drivers && Owns(w'.plan, d) ensures CommitPc(w', w'.drivers[d].pc) {
      assert CommitPc(w, w.drivers[d].pc) && Fresh(w.plan, w.drivers[d].pc);
    }
  }

  lemma {:induction false} StepKeepsCommits(w: World, e: Event)
    requires Core(w) && Commits(w) && Enabled(w, e)
    ensures Commits(Apply(w, e))
  {
    match e {
      case ByDriver(id, d) => DriverCommits(w, id, d);
      case Continue(stepId) => ContinueCommits(w, stepId);
      case TouchWorktree(head, dirty) => TouchCommits(w, head, dirty);
      case Tick(_) => CommitsFrame(w, Apply(w, e));
      case Cancel => CommitsFrame(w, Apply(w, e));
      case ClaimPlan(_) => CommitsFrame(w, Apply(w, e));
    }
  }

  // ----- Whole runs -----

  ghost predicate Good(w: World) {
    Core(w) && Starts(w) && Commits(w)
  }

  lemma {:induction false} InitGood(w: World)
    requires Init(w)
    ensures Good(w)
  {
    NewPlanOk(w.plan);
  }

  lemma {:induction false} StepKeepsGood(w: World, e: Event)
    requires Good(w) && Enabled(w, e)
    ensures Good(Apply(w, e))
  {
    StepKeepsCore(w, e);
    StepKeepsStarts(w, e);
    StepKeepsCommits(w, e);
  }

  lemma {:induction false} RunGood(ws: seq<World>, es: seq<Event>, k: nat)
    requires IsRun(ws, es) && k < |ws|
    ensures Good(ws[k])
  {
    if k == 0 {
      InitGood(ws[0]);
    } else {
      RunGood(ws, es, k - 1);
      assert StepsTo(ws[k - 1], es[k - 1], ws[k]);
      StepKeepsGood(ws[k - 1], es[k - 1]);
    }
  }

  /** Two timely drivers are one driver, and it holds an unexpired lease on an active plan. */
  lemma {:induction false} LeaseExcludes(ws: seq<World>, es: seq<Event>, k: nat, a: string, b: string)
    requires IsRun(ws, es) && k < |ws| && Timely(ws[k], a) && Timely(ws[k], b)
    ensures a == b && ws[k].plan.status == Active && ws[k].plan.driver == Some(a)
    ensures ws[k].plan.leaseUntil.Some? && ws[k].plan.leaseUntil.value > ws[k].now
  {
    RunGood(ws, es, k);
    TimelyOwns(ws[k], a);
    TimelyOwns(ws[k], b);
  }

  /** A driver is never stuck: the dependency-blocked outcome never happens. */
  lemma {:induction false} NeverDependencyBlocked(ws: seq<World>, es: seq<Event>, k: nat)
    requires IsRun(ws, es) && k < |ws|
    ensures ws[k].plan.blocker.Some? ==> ws[k].plan.blocker.value.code != DependencyBlocked
  {
    RunGood(ws, es, k);
  }

  /** At most one step is in progress, and only after everything it depends on passed. */
  lemma {:induction false} StepsInOrder(ws: seq<World>, es: seq<Event>, k: nat)
    requires IsRun(ws, es) && k < |ws|
    ensures OneOccupied(ws[k].plan.steps)
    ensures forall i | 0 <= i < |ws[k].plan.steps| ::
      ws[k].plan.steps[i].status != Pending ==> DepsPassed(ws[k].plan.steps, ws[k].plan.steps[i])
    ensures ws[k].plan.status == ReadyToCommit || ws[k].plan.status == Completed ==> AllPassed(ws[k].plan.steps)
  {
    RunGood(ws, es, k);
    forall i | 0 <= i < |ws[k].plan.steps| && ws[k].plan.steps[i].status != Pending
      ensures DepsPassed(ws[k].plan.steps, ws[k].plan.steps[i])
    {
      assert DepsOk(ws[k].plan.steps, i);
    }
  }

  lemma {:induction false} AdvancesTransitive(a: seq<Step>, b: seq<Step>, c: seq<Step>)
    requires Advances(a, b) && Advances(b, c)
    ensures Advances(a, c)
  {
  }

  lemma {:induction false} RunKept(ws: seq<World>, es: seq<Event>, k: nat)
    requires IsRun(ws, es) && k < |es|
    ensures Kept(ws[k], ws[k + 1])
  {
    RunGood(ws, es, k);
    assert StepsTo(ws[k], es[k], ws[k + 1]);
    StepKeepsCore(ws[k], es[k]);
  }

  lemma {:induction false} RunAdvances(ws: seq<World>, es: seq<Event>, k: nat)
    requires IsRun(ws, es) && k < |es|
    ensures Advances(ws[k].plan.steps, ws[k + 1].plan.steps)
    ensures IsFinal(ws[k].plan.status) ==> ws[k + 1].plan == ws[k].plan
  {
    RunKept(ws, es, k);
  }

  /** A passed, failed, cancelled or interrupted step stays exactly as it is, and a final plan too. */
  lemma {:induction false} NothingUndone(ws: seq<World>, es: seq<Event>, j: nat, k: nat)
    requires IsRun(ws, es) && j <= k < |ws|
    ensures Advances(ws[j].plan.steps, ws[k].plan.steps)
    ensures IsFinal(ws[j].plan.status) ==> ws[k].plan == ws[j].plan
    decreases k - j
  {
    if j < k {
      NothingUndone(ws, es, j, k - 1);
      RunAdvances(ws, es, k - 1);
      AdvancesTransitive(ws[j].plan.steps, ws[k - 1].plan.steps, ws[k].plan.steps);
    }
  }

  /** How many events of a run changed any step. */
  function Changes(ws: seq<World>): nat {
    if |ws| <= 1 then 0
    else Changes(ws[..|ws| - 1]) + if ws[|ws| - 1].plan.steps != ws[|ws| - 2].plan.steps then 1 else 0
  }

  lemma {:induction false} RunPrefix(ws: seq<World>, es: seq<Event>)
    requires IsRun(ws, es) && es != []
    ensures IsRun(ws[..|ws| - 1], es[..|es| - 1])
  {
  }

  /** However long a run, whatever crashes, retries and takeovers it has, the number
      of step changes is bounded by the attempts the plan was given. */
  lemma {:induction false} WorkBoundsChanges(ws: seq<World>, es: seq<Event>)
    requires IsRun(ws, es)
    ensures Changes(ws) + Work(ws[|ws| - 1].plan.steps) <= Work(ws[0].plan.steps)
    ensures Work(ws[0].plan.steps) <= 7 * |ws[0].plan.steps|
    decreases |es|
  {
    WorkOfNewPlan(ws[0].plan.steps);
    if es != [] {
      RunPrefix(ws, es);
      WorkBoundsChanges(ws[..|ws| - 1], es[..|es| - 1]);
      RunKept(ws, es, |es| - 1);
    }
  }

  /** At most one child per attempt and no more children than attempts, across
      crashes, takeovers and drivers that overstay their lease inside a start. */
  lemma {:induction false} AtMostOnce(ws: seq<World>, es: seq<Event>, k: nat, i: nat)
    requires IsRun(ws, es) && k < |ws| && i < |ws[0].plan.steps|
    ensures forall a, b | 0 <= a < b < |ws[k].children| :: ws[k].children[a].op != ws[k].children[b].op
    ensures |AttemptsOf(ws[k].children, ws[0].plan.steps[i].key)| <= ws[0].plan.steps[i].maxAttempts
  {
    RunGood(ws, es, k);
    NothingUndone(ws, es, 0, k);
    assert StepAdvances(ws[0].plan.steps[i], ws[k].plan.steps[i]);
    ChildrenBounded(ws[k], i);
  }

  /** However often a commit step is crashed and driven again, once it has passed
      it has made exactly one commit, on top of the head it started from. */
  lemma {:induction false} CommitExactlyOnce(ws: seq<World>, es: seq<Event>, k: nat, i: nat)
    requires IsRun(ws, es) && k < |ws| && i < |ws[k].plan.steps|
    requires ws[k].plan.steps[i].action == GitCommit && ws[k].plan.steps[i].status == Passed
    ensures |CommitsOf(ws[k].commits, i)| == 1
    ensures ws[k].plan.steps[i].startedHead == Some(CommitsOf(ws[k].commits, i)[0].parent)
  {
    RunGood(ws, es, k);
    assert CommitStepOk(ws[k], i);
  }

  // ----- Timed runs -----

  lemma {:induction false} InTimeIsGuarded(w: World, e: Event)
    requires Core(w) && Possible(w, e) && Quiet(w, e) && InTime(w, e)
    ensures Enabled(w, e)
  {
    if e.ByDriver? && Mutates(e.d) {
      TimelyOwns(w, e.who);
    }
  }

  lemma {:induction false} TimedStepKeepsGood(w: World, e: Event, w': World)
    requires Good(w) && TimedStep(w, e, w')
    ensures Good(w')
  {
    InTimeIsGuarded(w, e);
    StepKeepsGood(w, e);
  }

  lemma {:induction false} TimedGood(ws: seq<World>, es: seq<Event>, k: nat)
    requires IsTimedRun(ws, es) && k < |ws|
    ensures Good(ws[k])
  {
    if k == 0 {
      InitGood(ws[0]);
    } else {
      TimedGood(ws, es, k - 1);
      assert TimedStep(ws[k - 1], es[k - 1], ws[k]);
      TimedStepKeepsGood(ws[k - 1], es[k - 1], ws[k]);
    }
  }

  /** Drivers that keep within half a lease need no check: every timed run is a guarded run,
      so all that is proved of guarded runs holds of it. */
  lemma {:induction false} TimedRunIsGuarded(ws: seq<World>, es: seq<Event>)
    requires IsTimedRun(ws, es)
    ensures IsRun(ws, es)
  {
    forall k | 0 <= k < |es| ensures StepsTo(ws[k], es[k], ws[k + 1]) {
      assert TimedStep(ws[k], es[k], ws[k + 1]);
      TimedGood(ws, es, k);
      InTimeIsGuarded(ws[k], es[k]);
    }
  }

  /** In a timed run every mutation is made by the owner, under a lease that has not expired. */
  lemma {:induction false} TimedMutationsHoldTheLease(ws: seq<World>, es: seq<Event>, k: nat)
    requires IsTimedRun(ws, es) && k < |es| && es[k].ByDriver? && Mutates(es[k].d)
    ensures Owns(ws[k].plan, es[k].who)
    ensures ws[k].plan.leaseUntil.Some? && ws[k].plan.leaseUntil.value > ws[k].now
  {
    TimedGood(ws, es, k);
    assert TimedStep(ws[k], es[k], ws[k + 1]);
    TimelyOwns(ws[k], es[k].who);
  }
}
