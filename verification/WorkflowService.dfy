/** The stored workflow document and the calls that replace it. Each call works on its own
    copy and stores it at the end, so a refused call leaves the document as it was. */
module WorkflowService {
  import opened Base
  import opened Workflow
  import Laws = WorkflowLaws
  import Runs = WorkflowRuns
  import Task

  method CheckLinks(ids: seq<string>, tasks: map<string, LinkedTask>, repo: string)
    returns (refused: Option<Refused>)
    ensures refused == LinkRefusal(ids, tasks, repo)
  {
    var i := 0;
    while i < |ids|
      invariant 0 <= i <= |ids| && LinkRefusal(ids[i..], tasks, repo) == LinkRefusal(ids, tasks, repo)
    {
      if ids[i] !in tasks {
        return Some(TaskNotFound);
      }
      if tasks[ids[i]].repo != repo {
        return Some(TaskRepoMismatch);
      }
      assert ids[i..][1..] == ids[i + 1..];
      i := i + 1;
    }
    return None;
  }

  method TaskUnit(id: string, tasks: map<string, LinkedTask>, repo: string) returns (r: Result<Unit, Refused>)
    ensures r == UnitOf(id, tasks, repo)
  {
    if id !in tasks {
      return Err(TaskNotFound);
    }
    var linked := tasks[id];
    if linked.repo != repo {
      return Err(TaskRepoMismatch);
    }
    var task := linked.task;
    if task.status != Task.Completed {
      return Err(ImplementationIncomplete);
    }
    if task.contract.Some? && !task.verified {
      return Err(ImplementationNotVerified);
    }
    if task.outcome == Some("COMMIT") && Truthy(task.finalCommit) && Truthy(task.retentionRef) {
      return Ok(CommitUnit(id, task.finalCommit.value, task.retentionRef.value));
    }
    var reason := if task.outcomeReason.Some? then Trim(task.outcomeReason.value) else "";
    if task.outcome == Some("NO_CHANGE") && reason != "" {
      return Ok(NoChangeUnit(id, reason));
    }
    return Err(ImplementationEvidenceInvalid);
  }

  /** Units already collected, followed by the result for the remaining tasks. */
  function Collected(units: seq<Unit>, rest: Result<seq<Unit>, Refused>): Result<seq<Unit>, Refused> {
    if rest.Err? then rest else Ok(units + rest.value)
  }

  lemma {:induction false} CollectNext(
    units: seq<Unit>, ids: seq<string>, tasks: map<string, LinkedTask>, repo: string, i: nat)
    requires i < |ids|
    ensures
      var first, rest := UnitOf(ids[i], tasks, repo), UnitsOf(ids[i + 1..], tasks, repo);
      Collected(units, UnitsOf(ids[i..], tasks, repo))
      == if first.Err? then Err(first.error) else Collected(units + [first.value], rest)
  {
    assert ids[i..][1..] == ids[i + 1..];
    var first, rest := UnitOf(ids[i], tasks, repo), UnitsOf(ids[i + 1..], tasks, repo);
    if first.Ok? && rest.Ok? {
      assert units + ([first.value] + rest.value) == units + [first.value] + rest.value;
    }
  }

  lemma {:induction false} CollectedEnds(units: seq<Unit>, rest: Result<seq<Unit>, Refused>)
    ensures Collected(units, Ok([])) == Ok(units)
    ensures Collected([], rest) == rest
  {
    assert units + [] == units;
    if rest.Ok? {
      assert [] + rest.value == rest.value;
    }
  }

  method CaptureImplementationEvidence(w: Workflow, env: Env) returns (r: Result<Implementation, Refused>)
    ensures r == Captured(w, env)
    ensures Laws.Captures(w, env, r)
  {
    Laws.CaptureMeans(w, env);
    var ids := Deduplicated(w.taskIds);
    if |ids| == 0 {
      return Err(EvidenceRequired);
    }
    var units: seq<Unit> := [];
    var i := 0;
    CollectedEnds([], UnitsOf(ids, env.tasks, w.repo));
    assert ids[0..] == ids;
    while i < |ids|
      invariant 0 <= i <= |ids|
      invariant UnitsOf(ids, env.tasks, w.repo) == Collected(units, UnitsOf(ids[i..], env.tasks, w.repo))
    {
      CollectNext(units, ids, env.tasks, w.repo, i);
      var unit := TaskUnit(ids[i], env.tasks, w.repo);
      if unit.Err? {
        return Err(unit.error);
      }
      units := units + [unit.value];
      i := i + 1;
    }
    CollectedEnds(units, Ok([]));
    var sorted := SortedByTask(units);
    return Ok(Implementation(env.fingerprint(sorted), sorted));
  }

  method AssertReviewPassed(w: Workflow) returns (refused: Option<Refused>)
    ensures refused == ReviewRefusal(w)
    ensures Laws.ReviewJudged(w, refused)
  {
    Laws.ClearanceMeans(w);
    if w.implementation.None? {
      return Some(EvidenceRequired);
    }
    if w.review.None? {
      return Some(ReviewRequired);
    }
    var review := w.review.value;
    if review.target != w.implementation.value.fingerprint {
      return Some(ReviewTargetMismatch);
    }
    var axes := [review.standards, review.spec];
    var i := 0;
    while i < |axes|
      invariant 0 <= i <= 2 && forall j | 0 <= j < i :: AxisPasses(axes[j])
    {
      if !axes[i].pass || axes[i].blocking != 0 {
        return Some(BlockingFindings);
      }
      i := i + 1;
    }
    assert AxisPasses(axes[0]) && AxisPasses(axes[1]);
    return None;
  }

  lemma {:induction false} TransitionMeans(w: Workflow, event: Event, env: Env)
    ensures Laws.Judged(w, event, env, EventRefusal(w, event, env))
    ensures EventRefusal(w, event, env).None? ==> Laws.Becomes(w, event, env, Next(w, event, env))
  {
    Laws.RefusalMeans(w, event, env);
    if EventRefusal(w, event, env).None? {
      Laws.NextMeans(w, event, env);
    }
  }

  /** The switch over the events, on the caller's copy. */
  method Transition(w: Workflow, event: Event, env: Env) returns (r: Result<Workflow, Refused>)
    ensures r.Err? <==> EventRefusal(w, event, env).Some?
    ensures r.Err? ==> EventRefusal(w, event, env) == Some(r.error)
    ensures r.Ok? ==> r.value == Next(w, event, env)
    ensures Laws.Judged(w, event, env, if r.Ok? then None else Some(r.error))
    ensures r.Ok? ==> Laws.Becomes(w, event, env, r.value)
  {
    TransitionMeans(w, event, env);
    if !MayHappenIn(event, w.phase) {
      return Err(InvalidTransition);
    }
    match event {
      case SetupComplete =>
        if !env.configured {
          return Err(SetupIncomplete);
        }
        return Ok(w.(setupConfigured := true, phase := OrGrilling(w.afterSetup), afterSetup := None));
      case PrototypeNeeded =>
        return Ok(w.(returnPhase := Some(w.phase), phase := Prototype));
      case PrototypeComplete =>
        return Ok(w.(phase := OrGrilling(w.returnPhase), returnPhase := None));
      case GrillingComplete =>
        if HasOpenDecisions(w) {
          return Err(OpenDecisions);
        }
        if w.span == UnknownSpan {
          return Err(SpanRequired);
        }
        return Ok(w.(settled := true, phase := if w.span == MultiSession then Spec else Implement));
      case MapClear =>
        if HasOpenDecisions(w) {
          return Err(OpenDecisions);
        }
        return Ok(w.(settled := true, clarity := Clear, phase := Spec));
      case SpecComplete =>
        if HasOpenDecisions(w) {
          return Err(OpenDecisions);
        }
        if w.span == UnknownSpan {
          return Err(SpanRequired);
        }
        return Ok(w.(settled := true, phase := if w.span == MultiSession then Tickets else Implement));
      case TicketsComplete =>
        return Ok(w.(phase := Implement));
      case ImplementationComplete =>
        var draft := w;
        if |w.taskIds| > 0 {
          var captured := CaptureImplementationEvidence(w, env);
          if captured.Err? {
            return Err(captured.error);
          }
          draft := draft.(implementation := Some(captured.value));
        }
        return Ok(draft.(review := None, phase := Review));
      case ReviewPassed =>
        if w.implementation.Some? {
          var refused := AssertReviewPassed(w);
          if refused.Some? {
            return Err(refused.value);
          }
        }
        return Ok(w.(phase := Done));
      case ReviewChangesRequested =>
        return Ok(w.(implementation := None, review := None, phase := Implement));
      case Block =>
        return Ok(w.(returnPhase := Some(w.phase), phase := Blocked));
      case Resume =>
        return Ok(w.(phase := OrGrilling(w.returnPhase), returnPhase := None));
    }
  }

  method AdvancedCopy(w: Workflow, args: AdvanceArgs, env: Env) returns (r: Result<Workflow, Refused>)
    ensures r.Err? <==> AdvanceRefusal(w, args, env).Some?
    ensures r.Err? ==> AdvanceRefusal(w, args, env) == Some(r.error)
    ensures r.Ok? ==> r.value == Advanced(w, args, env)
  {
    var draft := WithAssessment(w, args.span, args.clarity);
    if args.openDecisions.Some? {
      draft := draft.(openDecisions := args.openDecisions.value);
    }
    var previous, history := draft.phase, draft.history;
    r := Transition(draft, args.event, env);
    if r.Ok? {
      var entry := Entry(Recorded.Moved(args.event), Some(previous), r.value.phase);
      assert r.value.history == history;
      r := Ok(r.value.(history := Pushed(history, entry)));
    }
  }

  class WorkflowStore {
    var workflow: Option<Workflow>

    /** The history is a chain ending at the current phase, the return slots fit the phase,
        and a finished workflow with evidence has passed its review. */
    ghost predicate Valid()
      reads this
    {
      workflow.Some? ==> Runs.ShapeOk(workflow.value)
    }

    constructor ()
      ensures Valid() && workflow == None
    {
      workflow := None;
    }

    method Start(args: StartArgs, configured: bool) returns (refused: Option<Refused>)
      requires Valid()
      modifies this
      ensures Valid()
      ensures refused == StartRefusal(old(workflow), args)
      ensures workflow == if refused.Some? then old(workflow) else Some(NewWorkflow(args, configured))
      ensures Laws.StartRefused(old(workflow), args, refused)
      ensures refused.None? ==> workflow.Some? && Laws.Starts(args, configured, workflow.value)
    {
      Laws.StartMeans(workflow, args, configured);
      if args.settled && args.span == UnknownSpan {
        return Some(SpanRequired);
      }
      var (routed, route) := RouteForStart(args.span, args.clarity, args.settled);
      var initial := if configured then routed else Setup;
      var goal := Trim(args.goal);
      if goal == "" {
        return Some(InvalidGoal);
      }
      if workflow.Some? && !args.replace {
        return Some(WorkflowExists);
      }
      var after := if configured then None else Some(routed);
      Runs.NewIsOk(args, configured);
      workflow := Some(Workflow(args.repo, goal, initial, route, args.span, args.clarity, args.settled, configured,
                                after, [], None, map[], [], None, None, [Entry(Started, None, initial)]));
      return None;
    }

    method Update(args: UpdateArgs, env: Env) returns (refused: Option<Refused>)
      requires Valid()
      modifies this
      ensures Valid()
      ensures old(workflow).None? ==> refused == Some(WorkflowNotFound) && workflow == None
      ensures old(workflow).Some? ==> refused == UpdateRefusal(old(workflow).value, args, env)
      ensures old(workflow).Some? ==>
        workflow == Some(if refused.Some? then old(workflow).value else Updated(old(workflow).value, args))
      ensures old(workflow).Some? ==>
        workflow.Some? && Laws.Updates(old(workflow).value, args, env, refused, workflow.value)
    {
      if workflow.Some? {
        Laws.UpdateMeans(workflow.value, args, env);
      }
      if workflow.None? {
        return Some(WorkflowNotFound);
      }
      var w := workflow.value;
      if w.phase == Done {
        return Some(WorkflowComplete);
      }
      var draft := WithArtifacts(WithDecisions(WithAssessment(w, args.span, args.clarity), args.openDecisions),
                                 args.artifacts);
      if args.taskIds.Some? {
        var taskIds := CleanList(args.taskIds.value);
        var mismatch := CheckLinks(taskIds, env.tasks, w.repo);
        if mismatch.Some? {
          return mismatch;
        }
        draft := draft.(taskIds := taskIds, implementation := None, review := None);
      }
      if args.review.Some? {
        var review := ReviewOf(args.review.value);
        if review.Err? {
          return Some(review.error);
        }
        draft := draft.(review := Some(review.value));
      }
      if ChangesNothing(args) {
        return Some(UpdateEmpty);
      }
      draft := draft.(history := Pushed(draft.history, Entry(Progress, Some(draft.phase), draft.phase)));
      Runs.UpdatedOk(w, args);
      workflow := Some(draft);
      return None;
    }

    /** An accepted event moves the phase along one of its edges. */
    method Advance(args: AdvanceArgs, env: Env) returns (refused: Option<Refused>)
      requires Valid()
      modifies this
      ensures Valid()
      ensures old(workflow).Some? && refused.None? ==>
        workflow.Some? && Runs.Edge(old(workflow).value.phase, args.event, workflow.value.phase)
      ensures old(workflow).None? ==> refused == Some(WorkflowNotFound) && workflow == None
      ensures old(workflow).Some? ==> refused == AdvanceRefusal(old(workflow).value, args, env)
      ensures old(workflow).Some? ==>
        workflow == Some(if refused.Some? then old(workflow).value else Advanced(old(workflow).value, args, env))
      ensures old(workflow).Some? ==>
        workflow.Some? && Laws.Advances(old(workflow).value, args, env, refused, workflow.value)
    {
      if workflow.Some? {
        Laws.AdvanceMeans(workflow.value, args, env);
      }
      if workflow.None? {
        return Some(WorkflowNotFound);
      }
      var moved := AdvancedCopy(workflow.value, args, env);
      if moved.Err? {
        return Some(moved.error);
      }
      Runs.AdvancedOk(workflow.value, args, env);
      workflow := Some(moved.value);
      return None;
    }
  }
}
