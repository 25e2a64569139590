/** What each call on a workflow does, said of the document before and the document after
    without the functions that compute it. */
module WorkflowLaws {
  import opened Base
  import opened Workflow
  import Canonical
  import Task
  import Units = WorkflowUnits

  // ----- Starting -----

  /** Where a workflow begins, once it is set up. */
  ghost predicate Routes(span: Span, clarity: Clarity, settled: bool, phase: Phase, route: string) {
    && (phase == Spec <==> settled && span == MultiSession)
    && (phase == Implement <==> settled && span != MultiSession)
    && (phase == Wayfinding <==> !settled && span == MultiSession && clarity == Foggy)
    && (phase == Grilling <==> !settled && !(span == MultiSession && clarity == Foggy))
    && route == if phase == Wayfinding then "wayfinder" else "main"
  }

  ghost predicate RoutesTo(args: StartArgs, phase: Phase) {
    exists route :: Routes(args.span, args.clarity, args.settled, phase, route)
  }

  ghost predicate StartRefused(current: Option<Workflow>, args: StartArgs, refused: Option<Refused>) {
    var unsized := args.settled && args.span == UnknownSpan;
    && (refused == Some(SpanRequired) <==> unsized)
    && (refused == Some(InvalidGoal) <==> !unsized && Blank(args.goal))
    && (refused == Some(WorkflowExists) <==> !unsized && !Blank(args.goal) && current.Some? && !args.replace)
    && (refused.None? <==> !unsized && !Blank(args.goal) && (current.None? || args.replace))
  }

  ghost predicate Starts(args: StartArgs, configured: bool, w: Workflow) {
    exists phase, route ::
      && Routes(args.span, args.clarity, args.settled, phase, route)
      && StartsAt(args, configured, phase, route, w)
  }

  ghost predicate StartsAt(args: StartArgs, configured: bool, phase: Phase, route: string, w: Workflow) {
    && w.repo == args.repo && Trims(args.goal, w.goal) && w.route == route
    && w.phase == (if configured then phase else Setup)
    && w.afterSetup == (if configured then None else Some(phase))
    && w.span == args.span && w.clarity == args.clarity && w.settled == args.settled
    && w.setupConfigured == configured && w.openDecisions == [] && w.returnPhase.None? && w.artifacts == map[]
    && w.taskIds == [] && w.implementation.None? && w.review.None? && w.history == [Entry(Started, None, w.phase)]
  }

  /** The text without the space around it. */
  ghost predicate Trims(text: string, trimmed: string) {
    exists lead, trail :: TrimsTo(text, lead, trimmed, trail)
  }

  ghost predicate TrimsTo(text: string, lead: string, trimmed: string, trail: string) {
    && text == lead + trimmed + trail && Blank(lead) && Blank(trail)
    && (trimmed != "" ==> !IsSpace(trimmed[0]) && !IsSpace(trimmed[|trimmed| - 1]))
  }

  lemma {:induction false} TrimStartMeans(text: string) returns (lead: string)
    ensures text == lead + TrimStart(text) && Blank(lead)
    ensures TrimStart(text) != "" ==> !IsSpace(TrimStart(text)[0])
  {
    lead := "";
    if text != "" && IsSpace(text[0]) {
      var rest := TrimStartMeans(text[1..]);
      lead := [text[0]] + rest;
    }
  }

  lemma {:induction false} TrimEndMeans(text: string) returns (trail: string)
    ensures text == TrimEnd(text) + trail && Blank(trail)
    ensures TrimEnd(text) != "" ==> !IsSpace(TrimEnd(text)[|TrimEnd(text)| - 1])
  {
    trail := "";
    if text != "" && IsSpace(text[|text| - 1]) {
      var rest := TrimEndMeans(text[..|text| - 1]);
      trail := rest + [text[|text| - 1]];
    }
  }

  lemma {:induction false} TrimMeans(text: string)
    ensures Trims(text, Trim(text))
  {
    var lead := TrimStartMeans(text);
    var trail := TrimEndMeans(TrimStart(text));
    assert TrimsTo(text, lead, Trim(text), trail);
  }

  lemma {:induction false} StartMeans(current: Option<Workflow>, args: StartArgs, configured: bool)
    ensures StartRefused(current, args, StartRefusal(current, args))
    ensures Starts(args, configured, NewWorkflow(args, configured))
  {
    TrimOfBlank(args.goal);
    TrimMeans(args.goal);
    var (phase, route) := RouteForStart(args.span, args.clarity, args.settled);
    assert Routes(args.span, args.clarity, args.settled, phase, route);
    assert StartsAt(args, configured, phase, route, NewWorkflow(args, configured));
  }

  // ----- Events: when they are accepted -----

  ghost predicate PhaseFits(e: Event, p: Phase) {
    match e
    case SetupComplete => p == Setup
    case GrillingComplete => p == Grilling
    case PrototypeNeeded => p in {Grilling, Wayfinding}
    case PrototypeComplete => p == Prototype
    case MapClear => p == Wayfinding
    case SpecComplete => p == Spec
    case TicketsComplete => p == Tickets
    case ImplementationComplete => p == Implement
    case ReviewPassed | ReviewChangesRequested => p == Review
    case Block => p !in {Done, Blocked}
    case Resume => p == Blocked
  }

  ghost predicate Resolved(w: Workflow) {
    forall d | d in w.openDecisions :: Blank(d)
  }

  ghost predicate NamesCommit(t: Task.TaskState) {
    && t.outcome == Some("COMMIT") && t.finalCommit.Some? && t.finalCommit.value != ""
    && t.retentionRef.Some? && t.retentionRef.value != ""
  }

  ghost predicate NamesReason(t: Task.TaskState) {
    t.outcome == Some("NO_CHANGE") && t.outcomeReason.Some? && !Blank(t.outcomeReason.value)
  }

  /** What is wrong with a linked task as evidence, if anything. */
  ghost predicate Faulty(id: string, tasks: map<string, LinkedTask>, repo: string, fault: Refused) {
    var here := id in tasks && tasks[id].repo == repo;
    var done := here && tasks[id].task.status == Task.Completed;
    match fault
    case TaskNotFound => id !in tasks
    case TaskRepoMismatch => id in tasks && tasks[id].repo != repo
    case ImplementationIncomplete => here && tasks[id].task.status != Task.Completed
    case ImplementationNotVerified => done && tasks[id].task.contract.Some? && !tasks[id].task.verified
    case ImplementationEvidenceInvalid =>
      && done && (tasks[id].task.contract.Some? ==> tasks[id].task.verified)
      && !NamesCommit(tasks[id].task) && !NamesReason(tasks[id].task)
    case _ => false
  }

  /** A task is good evidence, of this unit. */
  ghost predicate Proves(id: string, tasks: map<string, LinkedTask>, repo: string, u: Unit) {
    && id in tasks && tasks[id].repo == repo && tasks[id].task.status == Task.Completed
    && (tasks[id].task.contract.Some? ==> tasks[id].task.verified)
    && var t := tasks[id].task;
       match u
       case CommitUnit(task, commit, ref) =>
         task == id && NamesCommit(t) && t.finalCommit == Some(commit) && t.retentionRef == Some(ref)
       case NoChangeUnit(task, reason) =>
         task == id && !NamesCommit(t) && NamesReason(t) && Trims(t.outcomeReason.value, reason)
  }

  ghost predicate IsEvidence(id: string, tasks: map<string, LinkedTask>, repo: string) {
    exists u :: Proves(id, tasks, repo, u)
  }

  /** The first linked task that is no evidence, and what is wrong with it. */
  ghost predicate FirstFault(w: Workflow, tasks: map<string, LinkedTask>, fault: Refused) {
    exists k :: FaultAt(w, tasks, k, fault)
  }

  ghost predicate FaultAt(w: Workflow, tasks: map<string, LinkedTask>, k: nat, fault: Refused) {
    && k < |w.taskIds| && Faulty(w.taskIds[k], tasks, w.repo, fault)
    && forall j | 0 <= j < k :: IsEvidence(w.taskIds[j], tasks, w.repo)
  }

  ghost predicate Clears(w: Workflow) {
    && w.implementation.Some? && w.review.Some?
    && w.review.value.target == w.implementation.value.fingerprint
    && w.review.value.standards == Axis(true, 0) && w.review.value.spec == Axis(true, 0)
  }

  /** Why an event is refused in a phase it fits. */
  ghost predicate Refuses(w: Workflow, e: Event, env: Env, refused: Refused) {
    match e
    case SetupComplete => !env.configured && refused == SetupIncomplete
    case GrillingComplete | SpecComplete =>
      || (!Resolved(w) && refused == OpenDecisions)
      || (Resolved(w) && w.span == UnknownSpan && refused == SpanRequired)
    case MapClear => !Resolved(w) && refused == OpenDecisions
    case ImplementationComplete => w.taskIds != [] && FirstFault(w, env.tasks, refused)
    case ReviewPassed =>
      && w.implementation.Some?
      && (|| (w.review.None? && refused == ReviewRequired)
          || (w.review.Some? && w.review.value.target != w.implementation.value.fingerprint
              && refused == ReviewTargetMismatch)
          || (w.review.Some? && w.review.value.target == w.implementation.value.fingerprint && !Clears(w)
              && refused == BlockingFindings))
    case _ => false
  }

  ghost predicate Accepts(w: Workflow, e: Event, env: Env) {
    && PhaseFits(e, w.phase)
    && match e
       case SetupComplete => env.configured
       case GrillingComplete | SpecComplete => Resolved(w) && w.span != UnknownSpan
       case MapClear => Resolved(w)
       case ImplementationComplete => forall id | id in w.taskIds :: IsEvidence(id, env.tasks, w.repo)
       case ReviewPassed => w.implementation.Some? ==> Clears(w)
       case _ => true
  }

  ghost predicate Judged(w: Workflow, e: Event, env: Env, refused: Option<Refused>) {
    && (refused.None? <==> Accepts(w, e, env))
    && (refused == Some(InvalidTransition) <==> !PhaseFits(e, w.phase))
    && (refused.Some? && PhaseFits(e, w.phase) ==> Refuses(w, e, env, refused.value))
  }

  // ----- Events: what they do -----

  ghost predicate EvidenceOf(w: Workflow, env: Env, i: Implementation) {
    && i.fingerprint == env.fingerprint(i.units) && Units.Ascending(i.units)
    && forall u :: u in i.units <==> u.task in w.taskIds && Proves(u.task, env.tasks, w.repo, u)
  }

  /** Only what is named changes; where a gate leads depends on the span alone. */
  ghost predicate Becomes(w: Workflow, e: Event, env: Env, w': Workflow) {
    match e
    case SetupComplete =>
      && w' == w.(setupConfigured := true, phase := w'.phase, afterSetup := None)
      && w'.phase == if w.afterSetup.Some? then w.afterSetup.value else Grilling
    case GrillingComplete =>
      && w' == w.(settled := true, phase := w'.phase)
      && w'.phase == if w.span == MultiSession then Spec else Implement
    case SpecComplete =>
      && w' == w.(settled := true, phase := w'.phase)
      && w'.phase == if w.span == MultiSession then Tickets else Implement
    case MapClear => w' == w.(settled := true, clarity := Clear, phase := Spec)
    case TicketsComplete => w' == w.(phase := Implement)
    case PrototypeNeeded => w' == w.(phase := Prototype, returnPhase := Some(w.phase))
    case Block => w' == w.(phase := Blocked, returnPhase := Some(w.phase))
    case PrototypeComplete | Resume =>
      && w' == w.(phase := w'.phase, returnPhase := None)
      && w'.phase == if w.returnPhase.Some? then w.returnPhase.value else Grilling
    case ImplementationComplete =>
      && w' == w.(phase := Review, review := None, implementation := w'.implementation)
      && (if w.taskIds == [] then w'.implementation == w.implementation
          else w'.implementation.Some? && EvidenceOf(w, env, w'.implementation.value))
    case ReviewPassed => w' == w.(phase := Done)
    case ReviewChangesRequested => w' == w.(phase := Implement, implementation := None, review := None)
  }

  // ----- The functions do this -----

  lemma {:induction false} NothingTrimmed(values: seq<string>)
    ensures TrimmedNonEmpty(values) == [] <==> forall d | d in values :: Blank(d)
  {
    if values != [] {
      TrimOfBlank(values[0]);
      NothingTrimmed(values[1..]);
      assert forall d :: d in values <==> d == values[0] || d in values[1..];
    }
  }

  lemma {:induction false} UnitMeans(id: string, tasks: map<string, LinkedTask>, repo: string)
    ensures UnitOf(id, tasks, repo).Ok? ==> Proves(id, tasks, repo, UnitOf(id, tasks, repo).value)
    ensures UnitOf(id, tasks, repo).Err? ==> Faulty(id, tasks, repo, UnitOf(id, tasks, repo).error)
  {
    if id in tasks && tasks[id].task.outcomeReason.Some? {
      TrimOfBlank(tasks[id].task.outcomeReason.value);
      TrimMeans(tasks[id].task.outcomeReason.value);
    }
  }

  lemma {:induction false} TrimsOnce(text: string, a: string, b: string)
    requires Trims(text, a) && Trims(text, b)
    ensures a == b
  {
    var la, ta :| TrimsTo(text, la, a, ta);
    var lb, tb :| TrimsTo(text, lb, b, tb);
    TrimmedShows(text, la, a, ta);
    TrimmedShows(text, lb, b, tb);
    if a != "" {
      TrimEnds(text, la, a, ta);
      TrimEnds(text, lb, b, tb);
      assert |la| == |lb| && |ta| == |tb|;
      assert text[|la|..|la| + |a|] == a && text[|lb|..|lb| + |b|] == b;
    }
  }

  /** The space around a trimmed text ends where the text begins, and begins where it ends. */
  lemma {:induction false} TrimEnds(text: string, lead: string, trimmed: string, trail: string)
    requires TrimsTo(text, lead, trimmed, trail) && trimmed != ""
    ensures |text| == |lead| + |trimmed| + |trail|
    ensures !IsSpace(text[|lead|]) && forall k | 0 <= k < |lead| :: IsSpace(text[k])
    ensures !IsSpace(text[|text| - |trail| - 1]) && forall k | |text| - |trail| <= k < |text| :: IsSpace(text[k])
  {
    forall k | 0 <= k < |lead| ensures text[k] == lead[k] {
    }
    forall k | |text| - |trail| <= k < |text| ensures text[k] == trail[k - (|text| - |trail|)] {
    }
    assert text[|lead|] == trimmed[0] && text[|text| - |trail| - 1] == trimmed[|trimmed| - 1];
  }

  lemma {:induction false} TrimmedShows(text: string, lead: string, trimmed: string, trail: string)
    requires TrimsTo(text, lead, trimmed, trail)
    ensures trimmed == "" <==> Blank(text)
  {
    if trimmed == "" {
      assert text == lead + trail;
    } else {
      assert text[|lead|] == trimmed[0];
    }
  }

  lemma {:induction false} UnitUnique(id: string, tasks: map<string, LinkedTask>, repo: string, u: Unit)
    ensures Proves(id, tasks, repo, u) <==> UnitOf(id, tasks, repo) == Ok(u)
  {
    UnitMeans(id, tasks, repo);
    if Proves(id, tasks, repo, u) && UnitOf(id, tasks, repo).Ok? && u.NoChangeUnit? {
      TrimsOnce(tasks[id].task.outcomeReason.value, u.reason, UnitOf(id, tasks, repo).value.reason);
    }
  }

  lemma {:induction false} EvidenceUnique(id: string, tasks: map<string, LinkedTask>, repo: string)
    ensures IsEvidence(id, tasks, repo) <==> UnitOf(id, tasks, repo).Ok?
  {
    if UnitOf(id, tasks, repo).Ok? {
      UnitUnique(id, tasks, repo, UnitOf(id, tasks, repo).value);
    }
    if u :| Proves(id, tasks, repo, u) {
      UnitUnique(id, tasks, repo, u);
    }
  }

  lemma {:induction false} CapturedMeans(w: Workflow, env: Env)
    requires w.taskIds != []
    ensures Captured(w, env).Ok? <==> forall id | id in w.taskIds :: IsEvidence(id, env.tasks, w.repo)
    ensures Captured(w, env).Ok? ==> EvidenceOf(w, env, Captured(w, env).value)
  {
    Units.CapturedWhenAllAre(w, env);
    forall id ensures IsEvidence(id, env.tasks, w.repo) <==> UnitOf(id, env.tasks, w.repo).Ok? {
      EvidenceUnique(id, env.tasks, w.repo);
    }
    if Captured(w, env).Ok? {
      Units.CapturedUnits(w, env, NoChangeUnit("", ""));
      forall u
        ensures u in Captured(w, env).value.units <==> u.task in w.taskIds && Proves(u.task, env.tasks, w.repo, u)
      {
        Units.CapturedUnits(w, env, u);
        UnitUnique(u.task, env.tasks, w.repo, u);
      }
    }
  }

  lemma {:induction false} UnitsConcat(a: seq<string>, b: seq<string>, tasks: map<string, LinkedTask>, repo: string)
    ensures
      var x, y := UnitsOf(a, tasks, repo), UnitsOf(b, tasks, repo);
      UnitsOf(a + b, tasks, repo) == if x.Err? then x else if y.Err? then y else Ok(x.value + y.value)
  {
    if a == [] {
      assert a + b == b;
      var y := UnitsOf(b, tasks, repo);
      assert y.Ok? ==> [] + y.value == y.value;
    } else {
      assert (a + b)[1..] == a[1..] + b;
      UnitsConcat(a[1..], b, tasks, repo);
      var first, x, y := UnitOf(a[0], tasks, repo), UnitsOf(a[1..], tasks, repo), UnitsOf(b, tasks, repo);
      if first.Ok? && x.Ok? && y.Ok? {
        assert [first.value] + (x.value + y.value) == [first.value] + x.value + y.value;
      }
    }
  }

  lemma {:induction false} FaultFound(ids: seq<string>, tasks: map<string, LinkedTask>, repo: string) returns (k: nat)
    requires UnitsOf(Deduplicated(ids), tasks, repo).Err?
    ensures k < |ids| && Faulty(ids[k], tasks, repo, UnitsOf(Deduplicated(ids), tasks, repo).error)
    ensures forall j | 0 <= j < k :: IsEvidence(ids[j], tasks, repo)
  {
    var front, last := ids[..|ids| - 1], ids[|ids| - 1];
    var seen := UnitsOf(Deduplicated(front), tasks, repo);
    UnitsConcat(Deduplicated(front), [last], tasks, repo);
    if seen.Err? {
      k := FaultFound(front, tasks, repo);
    } else {
      k := |ids| - 1;
      assert [last][1..] == [];
      UnitMeans(last, tasks, repo);
      AllEvidence(front, tasks, repo);
    }
  }

  lemma {:induction false} AllEvidence(ids: seq<string>, tasks: map<string, LinkedTask>, repo: string)
    requires UnitsOf(Deduplicated(ids), tasks, repo).Ok?
    ensures forall j | 0 <= j < |ids| :: IsEvidence(ids[j], tasks, repo)
  {
    DeduplicatedKeeps(ids);
    Units.UnitsExactly(Deduplicated(ids), tasks, repo);
    forall j | 0 <= j < |ids| ensures IsEvidence(ids[j], tasks, repo) {
      assert ids[j] in Deduplicated(ids);
      EvidenceUnique(ids[j], tasks, repo);
    }
  }

  lemma {:induction false} CaptureRefused(w: Workflow, env: Env)
    requires w.taskIds != [] && Captured(w, env).Err?
    ensures FirstFault(w, env.tasks, Captured(w, env).error)
  {
    DeduplicatedKeeps(w.taskIds);
    assert w.taskIds[0] in Deduplicated(w.taskIds);
    var k := FaultFound(w.taskIds, env.tasks, w.repo);
    assert FaultAt(w, env.tasks, k, Captured(w, env).error);
  }

  /** The evidence of the linked tasks, or the first thing wrong with them. */
  ghost predicate Captures(w: Workflow, env: Env, r: Result<Implementation, Refused>) {
    && (w.taskIds == [] ==> r == Err(EvidenceRequired))
    && (w.taskIds != [] ==> (r.Ok? <==> forall id | id in w.taskIds :: IsEvidence(id, env.tasks, w.repo)))
    && (r.Ok? ==> EvidenceOf(w, env, r.value))
    && (w.taskIds != [] && r.Err? ==> FirstFault(w, env.tasks, r.error))
  }

  lemma {:induction false} CaptureMeans(w: Workflow, env: Env)
    ensures Captures(w, env, Captured(w, env))
  {
    if w.taskIds != [] {
      CapturedMeans(w, env);
      if Captured(w, env).Err? {
        CaptureRefused(w, env);
      }
    }
  }

  /** What is missing for a review to clear the evidence. */
  ghost predicate ReviewJudged(w: Workflow, refused: Option<Refused>) {
    && (refused.None? <==> Clears(w))
    && (refused == Some(EvidenceRequired) <==> w.implementation.None?)
    && (refused == Some(ReviewRequired) <==> w.implementation.Some? && w.review.None?)
    && (refused == Some(ReviewTargetMismatch) <==>
          w.implementation.Some? && w.review.Some? && w.review.value.target != w.implementation.value.fingerprint)
    && (refused == Some(BlockingFindings) <==>
          && w.implementation.Some? && w.review.Some?
          && w.review.value.target == w.implementation.value.fingerprint && !Clears(w))
  }

  lemma {:induction false} ClearanceMeans(w: Workflow)
    ensures ReviewJudged(w, ReviewRefusal(w))
  {
  }

  lemma {:induction false} PhasesMean(e: Event, p: Phase)
    ensures MayHappenIn(e, p) <==> PhaseFits(e, p)
  {
  }

  /** An event is accepted exactly when this says so, and refused for this reason. */
  lemma {:induction false} RefusalMeans(w: Workflow, e: Event, env: Env)
    ensures Judged(w, e, env, EventRefusal(w, e, env))
  {
    PhasesMean(e, w.phase);
    NothingTrimmed(w.openDecisions);
    if e == ImplementationComplete && w.taskIds != [] {
      CapturedMeans(w, env);
      if Captured(w, env).Err? {
        CaptureRefused(w, env);
      }
    }
  }

  /** An accepted event does this. */
  lemma {:induction false} NextMeans(w: Workflow, e: Event, env: Env)
    requires EventRefusal(w, e, env).None?
    ensures Becomes(w, e, env, Next(w, e, env))
  {
    if e == ImplementationComplete && w.taskIds != [] {
      CapturedMeans(w, env);
    }
  }

  // ----- Whole calls -----

  ghost predicate Remembers(history: seq<Entry>, entry: Entry, history': seq<Entry>) {
    if |history| < 200 then history' == history + [entry]
    else |history'| == 200 && history' == history[|history| - 199..] + [entry]
  }

  lemma {:induction false} PushMeans(history: seq<Entry>, entry: Entry)
    ensures Remembers(history, entry, Pushed(history, entry))
  {
  }

  ghost function Or<T>(given: Option<T>, kept: T): T {
    if given.Some? then given.value else kept
  }

  /** An event call: the assessment first, then the event and one entry of the history. */
  ghost predicate Advances(w: Workflow, args: AdvanceArgs, env: Env, refused: Option<Refused>, w': Workflow) {
    var p := w.(span := Or(args.span, w.span), clarity := Or(args.clarity, w.clarity),
                openDecisions := Or(args.openDecisions, w.openDecisions));
    && Judged(p, args.event, env, refused)
    && (refused.Some? ==> w' == w)
    && (refused.None? ==>
          && Becomes(p, args.event, env, w'.(history := w.history))
          && Remembers(w.history, Entry(Moved(args.event), Some(w.phase), w'.phase), w'.history))
  }

  lemma {:induction false} AcceptedMeans(w: Workflow, args: AdvanceArgs, env: Env)
    requires AdvanceRefusal(w, args, env).None?
    ensures
      var p, w' := Prepared(w, args), Advanced(w, args, env);
      && Becomes(p, args.event, env, w'.(history := w.history))
      && Remembers(w.history, Entry(Moved(args.event), Some(w.phase), w'.phase), w'.history)
  {
    var p := Prepared(w, args);
    NextMeans(p, args.event, env);
    var n := Next(p, args.event, env);
    PushMeans(w.history, Entry(Moved(args.event), Some(w.phase), n.phase));
    NextKeepsHistory(p, args.event, env);
    assert Advanced(w, args, env).(history := w.history) == n;
  }

  lemma {:induction false} PreparedMeans(w: Workflow, args: AdvanceArgs)
    ensures Prepared(w, args) == w.(span := Or(args.span, w.span), clarity := Or(args.clarity, w.clarity),
                                    openDecisions := Or(args.openDecisions, w.openDecisions))
  {
  }

  lemma {:induction false} AdvanceMeans(w: Workflow, args: AdvanceArgs, env: Env)
    ensures
      var refused := AdvanceRefusal(w, args, env);
      Advances(w, args, env, refused, if refused.None? then Advanced(w, args, env) else w)
  {
    PreparedMeans(w, args);
    RefusalMeans(Prepared(w, args), args.event, env);
    if AdvanceRefusal(w, args, env).None? {
      AcceptedMeans(w, args, env);
    }
  }

  lemma {:induction false} NextKeepsHistory(w: Workflow, e: Event, env: Env)
    requires EventRefusal(w, e, env).None?
    ensures Next(w, e, env).history == w.history
  {
  }

  // ----- Updating -----

  /** The values that are not blank, trimmed: the list of a part and the rest is the lists of both. */
  lemma {:induction false} TrimmedConcat(values: seq<string>, more: seq<string>)
    ensures TrimmedNonEmpty(values + more) == TrimmedNonEmpty(values) + TrimmedNonEmpty(more)
  {
    if values == [] {
      assert values + more == more;
    } else {
      assert (values + more)[1..] == values[1..] + more;
      TrimmedConcat(values[1..], more);
    }
  }

  lemma {:induction false} TrimmedOne(v: string, t: string)
    requires Trims(v, t)
    ensures TrimmedNonEmpty([v]) == if Blank(v) then [] else [t]
  {
    TrimOfBlank(v);
    TrimMeans(v);
    TrimsOnce(v, t, Trim(v));
    assert [v][1..] == [];
  }

  /** Each value once, in the order in which they first appear. */
  ghost predicate FirstsOf(values: seq<string>, firsts: seq<string>) {
    && (forall v :: v in firsts <==> v in values)
    && (forall i, j | 0 <= i < j < |firsts| :: firsts[i] != firsts[j])
    && (forall i, j | 0 <= i < j < |firsts| :: Precedes(values, firsts[i], firsts[j]))
  }

  ghost predicate Precedes(values: seq<string>, a: string, b: string) {
    forall j | 0 <= j < |values| && values[j] == b :: a in values[..j]
  }

  lemma {:induction false} FirstsMean(values: seq<string>)
    ensures FirstsOf(values, Deduplicated(values))
  {
    DeduplicatedKeeps(values);
    forall i, j | 0 <= i < j < |Deduplicated(values)|
      ensures Precedes(values, Deduplicated(values)[i], Deduplicated(values)[j])
    {
      FirstComesFirst(values, i, j);
    }
  }

  lemma {:induction false} FirstComesFirst(values: seq<string>, i: nat, j: nat)
    requires i < j < |Deduplicated(values)|
    ensures Precedes(values, Deduplicated(values)[i], Deduplicated(values)[j])
  {
    var front, last, firsts := values[..|values| - 1], values[|values| - 1], Deduplicated(values);
    DeduplicatedKeeps(front);
    assert values == front + [last];
    forall q | 0 <= q < |values| && values[q] == firsts[j] ensures firsts[i] in values[..q] {
      if j < |Deduplicated(front)| {
        FirstComesFirst(front, i, j);
        var p :| 0 <= p < |front| && front[p] == firsts[j];
        assert front[..p] <= values[..|front|];
        if q < |front| {
          assert values[..q] == front[..q];
        } else {
          assert values[..q] == front && firsts[i] in front[..p];
        }
      } else {
        assert q == |front| && values[..q] == front;
      }
    }
  }

  /** Every artifact that is named and not empty is stored, the last one of a name; the others stay. */
  ghost predicate Stores(artifacts: map<string, string>, more: seq<(string, string)>, merged: map<string, string>) {
    forall key :: StoresOne(artifacts, more, merged, key)
  }

  ghost predicate Writes(pair: (string, string), key: string, value: string) {
    key != "" && value != "" && Trims(pair.0, key) && Trims(pair.1, value)
  }

  ghost predicate WritesKey(pair: (string, string), key: string) {
    exists value :: Writes(pair, key, value)
  }

  ghost predicate StoresOne(
    artifacts: map<string, string>, more: seq<(string, string)>, merged: map<string, string>, key: string)
  {
    if exists k :: 0 <= k < |more| && WritesKey(more[k], key)
    then key in merged && exists k :: LastWrite(more, k, key, merged[key])
    else (key in merged <==> key in artifacts) && (key in merged ==> merged[key] == artifacts[key])
  }

  ghost predicate LastWrite(more: seq<(string, string)>, k: nat, key: string, value: string) {
    k < |more| && Writes(more[k], key, value) && forall j | k < j < |more| :: !WritesKey(more[j], key)
  }

  lemma {:induction false} WriteMeans(pair: (string, string), key: string)
    ensures WritesKey(pair, key) <==> key != "" && key == Trim(pair.0) && Trim(pair.1) != ""
    ensures WritesKey(pair, key) ==> Writes(pair, key, Trim(pair.1))
  {
    TrimMeans(pair.0);
    TrimMeans(pair.1);
    if value :| Writes(pair, key, value) {
      TrimsOnce(pair.0, key, Trim(pair.0));
      TrimsOnce(pair.1, value, Trim(pair.1));
    }
    if key != "" && key == Trim(pair.0) && Trim(pair.1) != "" {
      assert Writes(pair, key, Trim(pair.1));
    }
  }

  lemma {:induction false} MergedMeans(artifacts: map<string, string>, more: seq<(string, string)>, key: string)
    ensures StoresOne(artifacts, more, Merged(artifacts, more), key)
    decreases |more|
  {
    if more != [] {
      var pair, rest := more[0], more[1..];
      var skipped := Trim(pair.0) == "" || Trim(pair.1) == "";
      var next := if skipped then artifacts else artifacts[Trim(pair.0) := Trim(pair.1)];
      MergedMeans(next, rest, key);
      WriteMeans(pair, key);
      if k: nat :| k < |rest| && WritesKey(rest[k], key) {
        assert WritesKey(more[k + 1], key);
        var l: nat :| LastWrite(rest, l, key, Merged(next, rest)[key]);
        LaterWrite(more, l, key, Merged(next, rest)[key]);
      } else if WritesKey(pair, key) {
        assert WritesKey(more[0], key);
        assert forall j | 0 < j < |more| :: more[j] == rest[j - 1];
        assert LastWrite(more, 0, key, Merged(next, rest)[key]);
      } else {
        assert forall j | 0 < j < |more| :: more[j] == rest[j - 1];
      }
    }
  }

  lemma {:induction false} LaterWrite(more: seq<(string, string)>, l: nat, key: string, value: string)
    requires more != [] && LastWrite(more[1..], l, key, value)
    ensures LastWrite(more, l + 1, key, value)
  {
    forall j | l + 1 < j < |more| ensures !WritesKey(more[j], key) {
      assert more[j] == more[1..][j - 1];
    }
  }

  /** A review is given as two axes that pass or fail, and the fingerprint it is of. */
  ghost predicate Reads(input: ReviewInput, r: Result<ReviewEvidence, Refused>) {
    && (r.Err? ==> r.error == InvalidReviewEvidence)
    && (r.Ok? <==> IsHash(Trim(input.target)) && ReadsAxis(input.standards) && ReadsAxis(input.spec))
    && (r.Ok? ==>
          && r.value.target == Trim(input.target)
          && r.value.standards == AxisRead(input.standards) && r.value.spec == AxisRead(input.spec))
  }

  ghost predicate IsHash(text: string) {
    |text| == 64 && forall c | c in text :: c in "0123456789abcdef"
  }

  ghost predicate ReadsAxis(a: AxisInput) {
    Upper(Trim(a.result)) in {"PASS", "FAIL"} && a.blocking.Some? && a.blocking.value >= 0
  }

  ghost function AxisRead(a: AxisInput): Axis
    requires ReadsAxis(a)
  {
    Axis(Upper(Trim(a.result)) == "PASS", a.blocking.value)
  }

  lemma {:induction false} HashMeans(text: string)
    ensures IsFingerprint(text) <==> IsHash(text)
  {
    if IsHash(text) {
      forall k | 0 <= k < 64 ensures '0' <= text[k] <= '9' || 'a' <= text[k] <= 'f' {
        assert text[k] in text;
      }
    }
  }

  lemma {:induction false} ReviewMeans(input: ReviewInput)
    ensures Reads(input, ReviewOf(input))
  {
    HashMeans(Trim(input.target));
  }

  /** The links are refused for the first task that is unknown or of another repository. */
  ghost predicate LinkFault(ids: seq<string>, tasks: map<string, LinkedTask>, repo: string, refused: Refused) {
    exists k :: LinkFaultAt(ids, tasks, repo, k, refused)
  }

  ghost predicate LinkFaultAt(ids: seq<string>, tasks: map<string, LinkedTask>, repo: string, k: nat, refused: Refused)
  {
    && k < |ids|
    && ((ids[k] !in tasks && refused == TaskNotFound)
        || (ids[k] in tasks && tasks[ids[k]].repo != repo && refused == TaskRepoMismatch))
    && forall j | 0 <= j < k :: ids[j] in tasks && tasks[ids[j]].repo == repo
  }

  lemma {:induction false} LinksMean(ids: seq<string>, tasks: map<string, LinkedTask>, repo: string)
    ensures LinkRefusal(ids, tasks, repo).None? <==> forall id | id in ids :: id in tasks && tasks[id].repo == repo
    ensures LinkRefusal(ids, tasks, repo).Some? ==>
      LinkFault(ids, tasks, repo, LinkRefusal(ids, tasks, repo).value)
  {
    if ids != [] {
      LinksMean(ids[1..], tasks, repo);
      var refused := LinkRefusal(ids, tasks, repo);
      if refused.Some? {
        if ids[0] in tasks && tasks[ids[0]].repo == repo {
          var k: nat :| LinkFaultAt(ids[1..], tasks, repo, k, refused.value);
          forall j | 0 <= j < k + 1 ensures ids[j] in tasks && tasks[ids[j]].repo == repo {
            assert j > 0 ==> ids[j] == ids[1..][j - 1];
          }
          assert LinkFaultAt(ids, tasks, repo, k + 1, refused.value);
        } else {
          assert LinkFaultAt(ids, tasks, repo, 0, refused.value);
        }
      } else {
        assert forall id :: id in ids <==> id == ids[0] || id in ids[1..];
      }
    }
  }

  /** Trimmed values, each once. */
  ghost predicate CleansTo(values: seq<string>, clean: seq<string>) {
    FirstsOf(TrimmedNonEmpty(values), clean)
  }

  ghost predicate GivesNothing(args: UpdateArgs) {
    && args.span.None? && args.clarity.None? && args.openDecisions.None? && args.artifacts.None?
    && args.taskIds.None? && args.review.None? && Blank(args.note)
  }

  ghost predicate UpdateJudged(w: Workflow, args: UpdateArgs, ids: seq<string>, env: Env, refused: Option<Refused>) {
    var linked := args.taskIds.Some? ==> forall id | id in ids :: id in env.tasks && env.tasks[id].repo == w.repo;
    var readable := args.review.Some? ==> ReviewOf(args.review.value).Ok?;
    && (refused == Some(WorkflowComplete) <==> w.phase == Done)
    && (w.phase != Done && !linked ==> refused.Some? && LinkFault(ids, env.tasks, w.repo, refused.value))
    && (refused == Some(InvalidReviewEvidence) <==> w.phase != Done && linked && !readable)
    && (refused == Some(UpdateEmpty) <==> w.phase != Done && linked && readable && GivesNothing(args))
    && (refused.None? <==> w.phase != Done && linked && readable && !GivesNothing(args))
  }

  /** Only what is given changes; new links drop the evidence and the review. */
  ghost predicate UpdatesTo(w: Workflow, args: UpdateArgs, w': Workflow) {
    && w' == w.(span := Or(args.span, w.span), clarity := Or(args.clarity, w.clarity),
                openDecisions := w'.openDecisions, settled := w'.settled, artifacts := w'.artifacts,
                taskIds := w'.taskIds, implementation := w'.implementation, review := w'.review,
                history := w'.history)
    && (if args.openDecisions.Some?
        then
          && CleansTo(args.openDecisions.value, w'.openDecisions)
          && (w'.settled <==> w.settled && w'.openDecisions == [])
        else w'.openDecisions == w.openDecisions && w'.settled == w.settled)
    && (if args.artifacts.Some? then Stores(w.artifacts, args.artifacts.value, w'.artifacts)
        else w'.artifacts == w.artifacts)
    && (if args.taskIds.Some? then CleansTo(args.taskIds.value, w'.taskIds) && w'.implementation.None?
        else w'.taskIds == w.taskIds && w'.implementation == w.implementation)
    && (if args.review.Some? then w'.review.Some? && Reads(args.review.value, Ok(w'.review.value))
        else w'.review == if args.taskIds.Some? then None else w.review)
    && Remembers(w.history, Entry(Progress, Some(w.phase), w.phase), w'.history)
  }

  /** An update: the refusals in order, and otherwise what is given. */
  ghost predicate Updates(w: Workflow, args: UpdateArgs, env: Env, refused: Option<Refused>, w': Workflow) {
    && (exists ids :: CleansTo(if args.taskIds.Some? then args.taskIds.value else [], ids)
                      && UpdateJudged(w, args, ids, env, refused))
    && (if refused.Some? then w' == w else UpdatesTo(w, args, w'))
  }

  lemma {:induction false} UpdateRefusalMeans(w: Workflow, args: UpdateArgs, env: Env)
    ensures
      var ids := if args.taskIds.Some? then CleanList(args.taskIds.value) else [];
      UpdateJudged(w, args, ids, env, UpdateRefusal(w, args, env))
  {
    TrimOfBlank(args.note);
    if args.taskIds.Some? {
      LinksMean(CleanList(args.taskIds.value), env.tasks, w.repo);
    }
  }

  lemma {:induction false} DecisionFields(w: Workflow, values: Option<seq<string>>)
    ensures
      var d := WithDecisions(w, values);
      && d == w.(openDecisions := d.openDecisions, settled := d.settled)
      && d.openDecisions == (if values.Some? then CleanList(values.value) else w.openDecisions)
      && (d.settled <==> w.settled && (values.Some? ==> d.openDecisions == []))
  {
  }

  lemma {:induction false} TaskFields(w: Workflow, ids: Option<seq<string>>)
    ensures
      WithTasks(w, ids) == w.(taskIds := if ids.Some? then CleanList(ids.value) else w.taskIds,
                              implementation := if ids.Some? then None else w.implementation,
                              review := if ids.Some? then None else w.review)
  {
  }

  lemma {:induction false} ArtifactFields(w: Workflow, more: Option<seq<(string, string)>>)
    ensures
      WithArtifacts(w, more) == w.(artifacts := if more.Some? then Merged(w.artifacts, more.value) else w.artifacts)
  {
  }

  /** The stages of an update, one after the other. */
  lemma {:induction false} UpdatedFields(w: Workflow, args: UpdateArgs)
    requires args.review.Some? ==> ReviewOf(args.review.value).Ok?
    ensures
      var w', ids := Updated(w, args), args.taskIds;
      var d := WithDecisions(w, args.openDecisions);
      && w' == w.(span := Or(args.span, w.span), clarity := Or(args.clarity, w.clarity),
                  openDecisions := d.openDecisions, settled := d.settled,
                  artifacts := if args.artifacts.Some? then Merged(w.artifacts, args.artifacts.value) else w.artifacts,
                  taskIds := if ids.Some? then CleanList(ids.value) else w.taskIds,
                  implementation := if ids.Some? then None else w.implementation,
                  review := if args.review.Some? then Some(ReviewOf(args.review.value).value)
                            else if ids.Some? then None else w.review,
                  history := Pushed(w.history, Entry(Progress, Some(w.phase), w.phase)))
  {
    var a := WithAssessment(w, args.span, args.clarity);
    DecisionFields(w, args.openDecisions);
    DecisionFields(a, args.openDecisions);
    var b := WithDecisions(a, args.openDecisions);
    ArtifactFields(b, args.artifacts);
    var c := WithArtifacts(b, args.artifacts);
    TaskFields(c, args.taskIds);
  }

  lemma {:induction false} UpdatedMeans(w: Workflow, args: UpdateArgs)
    requires args.review.Some? ==> ReviewOf(args.review.value).Ok?
    ensures UpdatesTo(w, args, Updated(w, args))
  {
    UpdatedFields(w, args);
    DecisionFields(w, args.openDecisions);
    if args.openDecisions.Some? {
      FirstsMean(TrimmedNonEmpty(args.openDecisions.value));
    }
    if args.taskIds.Some? {
      FirstsMean(TrimmedNonEmpty(args.taskIds.value));
    }
    if args.review.Some? {
      ReviewMeans(args.review.value);
    }
    if args.artifacts.Some? {
      AllMerged(w.artifacts, args.artifacts.value);
    }
    PushMeans(w.history, Entry(Progress, Some(w.phase), w.phase));
  }

  lemma {:induction false} AllMerged(artifacts: map<string, string>, more: seq<(string, string)>)
    ensures Stores(artifacts, more, Merged(artifacts, more))
  {
    forall key ensures StoresOne(artifacts, more, Merged(artifacts, more), key) {
      MergedMeans(artifacts, more, key);
    }
  }

  lemma {:induction false} UpdateMeans(w: Workflow, args: UpdateArgs, env: Env)
    ensures
      var refused := UpdateRefusal(w, args, env);
      Updates(w, args, env, refused, if refused.Some? then w else Updated(w, args))
  {
    UpdateRefusalMeans(w, args, env);
    var values := if args.taskIds.Some? then args.taskIds.value else [];
    FirstsMean(TrimmedNonEmpty(values));
    assert CleansTo(values, CleanList(values));
    if UpdateRefusal(w, args, env).None? {
      UpdatedMeans(w, args);
    }
  }
}
