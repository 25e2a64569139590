/** When a finished workflow was reviewed, and runs in which the service lets go of something:
    of the review, and of the phase that asked for a prototype. */
module WorkflowReview {
  import opened Base
  import opened Workflow
  import opened WorkflowRuns
  import Task
  import Units = WorkflowUnits

  // ----- When the review was checked -----

  /** In review, or blocked and to return to it. */
  predicate UnderReview(s: Slots) {
    s.phase == Review || (s.phase == Blocked && s.returnPhase == Some(Review))
  }

  lemma {:induction false} ReviewContinues(s: Slots, e: Option<Event>, t: Slots)
    requires SlotOk(s) && SlotMove(s, e, t) && UnderReview(t) && e != Some(ImplementationComplete)
    ensures UnderReview(s)
  {
  }

  /** A review goes back, without a break, to the implementation it is a review of. */
  lemma {:induction false} ReviewBegan(ss: seq<Slots>, es: seq<Option<Event>>, k: nat) returns (j: nat)
    requires IsTrace(ss, es) && k < |ss| && UnderReview(ss[k]) && !UnderReview(ss[0])
    requires forall i | 0 <= i < |ss| :: SlotOk(ss[i])
    ensures j < k && es[j] == Some(ImplementationComplete)
    ensures forall i | j < i <= k :: UnderReview(ss[i])
  {
    assert k > 0 && SlotMove(ss[k - 1], es[k - 1], ss[k]);
    if es[k - 1] == Some(ImplementationComplete) {
      j := k - 1;
    } else {
      ReviewContinues(ss[k - 1], es[k - 1], ss[k]);
      j := ReviewBegan(ss, es, k - 1);
    }
  }

  lemma {:induction false} ReviewBeganInRun(
    start: StartArgs, configured: bool, ws: seq<World>, cs: seq<Call>, k: nat) returns (j: nat)
    requires IsRun(start, configured, ws, cs) && k < |ws| && ws[k].workflow.phase == Review
    ensures j < k && Moves(ws[j], cs[j], ImplementationComplete)
    ensures forall i | j < i <= k :: InReview(ws[i])
  {
    var ss, es := RunTrace(start, configured, ws, cs);
    forall i | 0 <= i < |ss| ensures SlotOk(ss[i]) {
      RunOk(start, configured, ws, cs, i);
    }
    assert ss[0] == SlotsOf(ws[0].workflow);
    j := ReviewBegan(ss, es, k);
    assert es[j] == EventOf(ws[j], cs[j]);
    forall i | j < i <= k ensures InReview(ws[i]) {
      assert UnderReview(ss[i]) && ss[i] == SlotsOf(ws[i].workflow);
    }
  }

  /** The stored review is of the stored evidence and clears it. */
  ghost predicate Reviewed(w: Workflow) {
    && w.implementation.Some? && w.review.Some?
    && w.review.value.target == w.implementation.value.fingerprint
    && w.review.value.standards == Axis(true, 0) && w.review.value.spec == Axis(true, 0)
  }

  lemma {:induction false} PassingIsReviewed(w: World, c: Call)
    requires Moves(w, c, ReviewPassed)
    ensures Apply(w, c).workflow.phase == Done
    ensures Apply(w, c).workflow.implementation == w.workflow.implementation
    ensures Reviewed(Apply(w, c).workflow) <==> w.workflow.implementation.Some?
  {
    PreparedKeepsSlots(w.workflow, c.args);
  }

  /** Every run that ends went through a review that began with a finished implementation, and the
      review was checked exactly if tasks were linked then and were not linked anew since. */
  lemma {:induction false} ReviewCheckedExactly(
    start: StartArgs, configured: bool, ws: seq<World>, cs: seq<Call>, k: nat) returns (j: nat)
    requires IsRun(start, configured, ws, cs) && k < |cs| && Moves(ws[k], cs[k], ReviewPassed)
    ensures j < k && Moves(ws[j], cs[j], ImplementationComplete)
    ensures forall i | j < i <= k :: InReview(ws[i])
    ensures ws[k + 1].workflow.phase == Done
    ensures Reviewed(ws[k + 1].workflow) <==> ws[j].workflow.taskIds != [] && !RelinkedBetween(ws, cs, j, k)
  {
    RunStep(start, configured, ws, cs, k);
    PassingIsReviewed(ws[k], cs[k]);
    InReviewToPass(ws[k], cs[k]);
    j := ReviewBeganInRun(start, configured, ws, cs, k);
    EvidenceDuringReview(start, configured, ws, cs, j, k);
  }

  lemma {:induction false} InReviewToPass(w: World, c: Call)
    requires Moves(w, c, ReviewPassed)
    ensures w.workflow.phase == Review
  {
    PreparedKeepsSlots(w.workflow, c.args);
  }

  // ----- A run that ends without a review of its work -----

  /** The call that only carries an event. */
  function Plain(e: Event): Call {
    Advances(AdvanceArgs(e, None, None, None), true)
  }

  /** The call that only links one task. */
  function Link(id: string): Call {
    Updates(UpdateArgs(None, None, None, None, Some([id]), None, ""))
  }

  function Idle(id: string): Task.TaskState {
    Task.TaskState(id, "base", None, Task.Active, false, [], [], [], [], [], None, None, None, None, None, false, None)
  }

  /** Task "a" is completed with a commit, task "b" is still being worked on. */
  function TwoTasks(): map<string, LinkedTask> {
    map["a" := LinkedTask("repo", Idle("a").(status := Task.Completed, finalCommit := Some("c"),
                                             outcome := Some("COMMIT"), retentionRef := Some("r"))),
        "b" := LinkedTask("repo", Idle("b"))]
  }

  lemma {:induction false} LinkTrims(id: char)
    requires !IsSpace(id)
    ensures CleanList([[id]]) == [[id]]
  {
    assert [id][1..] == [];
    assert TrimmedNonEmpty([[id]][1..]) == [];
    assert Trim([id]) == [id];
    assert TrimmedNonEmpty([[id]]) == [[id]];
    assert Deduplicated([[id]]) == [[id]];
  }

  lemma {:induction false} Linked(w: World, id: char)
    requires !IsSpace(id) && w.workflow.phase != Done
    requires [id] in w.tasks && w.tasks[[id]].repo == w.workflow.repo
    ensures Accepted(w, Link([id]))
    ensures Apply(w, Link([id])).workflow
         == w.workflow.(taskIds := [[id]], implementation := None, review := None,
                        history := Apply(w, Link([id])).workflow.history)
    ensures Apply(w, Link([id])).tasks == w.tasks
  {
    LinkTrims(id);
    assert LinkRefusal([[id]][1..], w.tasks, w.workflow.repo).None?;
  }

  lemma {:induction false} OneTaskCaptured(w: World, id: string)
    requires w.workflow.phase == Implement && w.workflow.taskIds == [id] && UnitOf(id, w.tasks, w.workflow.repo).Ok?
    ensures Accepted(w, Plain(ImplementationComplete))
    ensures Apply(w, Plain(ImplementationComplete)).workflow.phase == Review
    ensures Apply(w, Plain(ImplementationComplete)).workflow.implementation.Some?
    ensures Apply(w, Plain(ImplementationComplete)).workflow.repo == w.workflow.repo
    ensures Apply(w, Plain(ImplementationComplete)).tasks == w.tasks
  {
    Units.CapturedWhenAllAre(w.workflow, Env(w.tasks, true, w.fingerprint));
    assert Prepared(w.workflow, AdvanceArgs(ImplementationComplete, None, None, None)) == w.workflow;
  }

  lemma {:induction false} PassesUnchecked(w: World)
    requires w.workflow.phase == Review && w.workflow.implementation.None?
    ensures Accepted(w, Plain(ReviewPassed))
    ensures Apply(w, Plain(ReviewPassed)).workflow
         == w.workflow.(phase := Done, history := Apply(w, Plain(ReviewPassed)).workflow.history)
    ensures Apply(w, Plain(ReviewPassed)).tasks == w.tasks
  {
    assert Prepared(w.workflow, AdvanceArgs(ReviewPassed, None, None, None)) == w.workflow;
  }

  /** Four calls in a row make a run. */
  lemma {:induction false} FourCalls(start: StartArgs, w0: World, cs: seq<Call>) returns (ws: seq<World>)
    requires StartRefusal(None, start).None? && w0.workflow == NewWorkflow(start, true)
    requires |cs| == 4 && forall c | c in cs :: !c.TasksMove?
    ensures |ws| == 5 && ws[0] == w0 && IsRun(start, true, ws, cs)
    ensures ws[1] == Apply(ws[0], cs[0]) && ws[2] == Apply(ws[1], cs[1])
    ensures ws[3] == Apply(ws[2], cs[2]) && ws[4] == Apply(ws[3], cs[3])
  {
    ws := [w0];
    while |ws| < 5
      invariant 1 <= |ws| <= 5 && ws[0] == w0
      invariant forall k {:trigger cs[k]} | 0 <= k < |ws| - 1 :: StepsTo(ws[k], cs[k], ws[k + 1])
    {
      ws := ws + [Apply(ws[|ws| - 1], cs[|ws| - 1])];
    }
    assert cs[0] in cs && cs[1] in cs && cs[2] in cs && cs[3] in cs;
  }

  lemma {:induction false} TwoTasksUnits()
    ensures UnitOf("a", TwoTasks(), "repo") == Ok(CommitUnit("a", "c", "r"))
    ensures "b" in TwoTasks() && TwoTasks()["b"] == LinkedTask("repo", Idle("b"))
  {
  }

  /** A task linked during the review takes the evidence away and with it the check: the run
      ends with an unfinished task as its only work and with no review at all. */
  lemma {:induction false} RelinkingSkipsTheReview(goal: string, fingerprint: seq<Unit> -> string)
    returns (ws: seq<World>, cs: seq<Call>)
    requires Trim(goal) != ""
    ensures |cs| == 4 && IsRun(StartArgs("repo", goal, SingleSession, Clear, true, false), true, ws, cs)
    ensures ws[2].workflow.phase == Review && ws[2].workflow.implementation.Some?
    ensures ws[4].workflow.phase == Done && ws[4].workflow.review.None? && ws[4].workflow.implementation.None?
    ensures ws[4].workflow.taskIds == ["b"] && "b" in ws[4].tasks && ws[4].tasks["b"].task.status == Task.Active
  {
    var start := StartArgs("repo", goal, SingleSession, Clear, true, false);
    var w0 := World(NewWorkflow(start, true), TwoTasks(), fingerprint);
    cs := [Link("a"), Plain(ImplementationComplete), Link("b"), Plain(ReviewPassed)];
    ws := FourCalls(start, w0, cs);
    TwoTasksUnits();
    Linked(ws[0], 'a');
    OneTaskCaptured(ws[1], "a");
    Linked(ws[2], 'b');
    PassesUnchecked(ws[3]);
  }

  // ----- A prototype that forgets its way -----

  lemma {:induction false} PlainMoves(w: World, e: Event)
    requires e in {PrototypeNeeded, PrototypeComplete, Block, Resume} && MayHappenIn(e, w.workflow.phase)
    ensures Accepted(w, Plain(e)) && SlotStep(SlotsOf(w.workflow), e, SlotsOf(Apply(w, Plain(e)).workflow))
  {
    ApplyMovesSlots(w, Plain(e));
  }

  /** The fallback at work: a prototype asked for while wayfinding, blocked and resumed
      in between, comes back to grilling, and the way is lost. */
  lemma {:induction false} BlockedPrototypeForgetsWayfinding(goal: string, fingerprint: seq<Unit> -> string)
    returns (ws: seq<World>, cs: seq<Call>)
    requires Trim(goal) != ""
    ensures IsRun(StartArgs("repo", goal, MultiSession, Foggy, false, false), true, ws, cs)
    ensures cs == [Plain(PrototypeNeeded), Plain(Block), Plain(Resume), Plain(PrototypeComplete)]
    ensures ws[0].workflow.phase == Wayfinding && ws[1].workflow.phase == ws[3].workflow.phase == Prototype
    ensures ws[4].workflow.phase == Grilling
  {
    var start := StartArgs("repo", goal, MultiSession, Foggy, false, false);
    var w0 := World(NewWorkflow(start, true), map[], fingerprint);
    cs := [Plain(PrototypeNeeded), Plain(Block), Plain(Resume), Plain(PrototypeComplete)];
    ws := FourCalls(start, w0, cs);
    PlainMoves(ws[0], PrototypeNeeded);
    PlainMoves(ws[1], Block);
    PlainMoves(ws[2], Resume);
    PlainMoves(ws[3], PrototypeComplete);
  }
}
