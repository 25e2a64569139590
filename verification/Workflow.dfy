/** The guided-development workflow of one repository: ten phases, twelve events,
    gates, and one slot for the phase to return to. */
module Workflow {
  import opened Base
  import Canonical
  import Task

  const MAX_HISTORY: nat := 200

  datatype Phase =
    Setup | Grilling | Wayfinding | Prototype | Spec | Tickets | Implement | Review | Blocked | Done

  datatype Event =
    | SetupComplete
    | GrillingComplete
    | PrototypeNeeded
    | PrototypeComplete
    | MapClear
    | SpecComplete
    | TicketsComplete
    | ImplementationComplete
    | ReviewPassed
    | ReviewChangesRequested
    | Block
    | Resume

  datatype Span = SingleSession | MultiSession | UnknownSpan

  datatype Clarity = Clear | Foggy | UnknownClarity

  datatype Recorded = Started | Progress | Moved(event: Event)

  datatype Entry = Entry(event: Recorded, from: Option<Phase>, phase: Phase)

  /** What a finished implementation task contributes. */
  datatype Unit = CommitUnit(task: string, commit: string, ref: string) | NoChangeUnit(task: string, reason: string)

  datatype Implementation = Implementation(fingerprint: string, units: seq<Unit>)

  datatype Axis = Axis(pass: bool, blocking: nat)

  datatype ReviewEvidence = ReviewEvidence(target: string, standards: Axis, spec: Axis)

  datatype Workflow = Workflow(
    repo: string,
    goal: string,
    phase: Phase,
    route: string,
    span: Span,
    clarity: Clarity,
    settled: bool,
    setupConfigured: bool,
    afterSetup: Option<Phase>,
    openDecisions: seq<string>,
    returnPhase: Option<Phase>,
    artifacts: map<string, string>,
    taskIds: seq<string>,
    implementation: Option<Implementation>,
    review: Option<ReviewEvidence>,
    history: seq<Entry>)

  datatype LinkedTask = LinkedTask(repo: string, task: Task.TaskState)

  /** What the service sees outside the workflow document; `fingerprint` stands for hashing the units. */
  datatype Env = Env(tasks: map<string, LinkedTask>, configured: bool, fingerprint: seq<Unit> -> string)

  datatype Refused =
    | WorkflowExists
    | WorkflowNotFound
    | InvalidGoal
    | SpanRequired
    | WorkflowComplete
    | UpdateEmpty
    | TaskNotFound
    | TaskRepoMismatch
    | InvalidReviewEvidence
    | InvalidTransition
    | SetupIncomplete
    | OpenDecisions
    | EvidenceRequired
    | ImplementationIncomplete
    | ImplementationNotVerified
    | ImplementationEvidenceInvalid
    | ReviewRequired
    | ReviewTargetMismatch
    | BlockingFindings

  // ----- Starting -----

  datatype StartArgs = StartArgs(
    repo: string,
    goal: string,
    span: Span,
    clarity: Clarity,
    settled: bool,
    replace: bool)

  function RouteForStart(span: Span, clarity: Clarity, settled: bool): (Phase, string) {
    if settled then (if span == MultiSession then (Spec, "main") else (Implement, "main"))
    else if span == MultiSession && clarity == Foggy then (Wayfinding, "wayfinder")
    else (Grilling, "main")
  }

  function NewWorkflow(args: StartArgs, configured: bool): Workflow {
    var (routed, route) := RouteForStart(args.span, args.clarity, args.settled);
    var phase := if configured then routed else Setup;
    Workflow(args.repo, Trim(args.goal), phase, route, args.span, args.clarity, args.settled, configured,
             if configured then None else Some(routed), [], None, map[], [], None, None,
             [Entry(Started, None, phase)])
  }

  function StartRefusal(current: Option<Workflow>, args: StartArgs): Option<Refused> {
    if args.settled && args.span == UnknownSpan then Some(SpanRequired)
    else if Trim(args.goal) == "" then Some(InvalidGoal)
    else if current.Some? && !args.replace then Some(WorkflowExists)
    else None
  }

  // ----- Shared steps -----

  /** Appends to the history and keeps its last 200 entries. */
  function Pushed(history: seq<Entry>, entry: Entry): seq<Entry> {
    var longer := history + [entry];
    if |longer| > MAX_HISTORY then longer[|longer| - MAX_HISTORY..] else longer
  }

  function TrimmedNonEmpty(values: seq<string>): seq<string> {
    if values == [] then []
    else (if Trim(values[0]) == "" then [] else [Trim(values[0])]) + TrimmedNonEmpty(values[1..])
  }

  function CleanList(values: seq<string>): seq<string> {
    Deduplicated(TrimmedNonEmpty(values))
  }

  predicate HasOpenDecisions(w: Workflow) {
    TrimmedNonEmpty(w.openDecisions) != []
  }

  // ----- Updating -----

  datatype AxisInput = AxisInput(result: string, blocking: Option<int>)

  datatype ReviewInput = ReviewInput(target: string, standards: AxisInput, spec: AxisInput)

  datatype UpdateArgs = UpdateArgs(
    span: Option<Span>,
    clarity: Option<Clarity>,
    openDecisions: Option<seq<string>>,
    artifacts: Option<seq<(string, string)>>,
    taskIds: Option<seq<string>>,
    review: Option<ReviewInput>,
    note: string)

  predicate IsFingerprint(text: string) {
    |text| == 64 && forall k | 0 <= k < 64 :: '0' <= text[k] <= '9' || 'a' <= text[k] <= 'f'
  }

  /** The result as it is stored: trimmed and in upper case. */
  function ResultOf(a: AxisInput): string {
    Upper(Trim(a.result))
  }

  predicate AxisValid(a: AxisInput) {
    (ResultOf(a) == "PASS" || ResultOf(a) == "FAIL") && a.blocking.Some? && a.blocking.value >= 0
  }

  function AxisOf(a: AxisInput): Axis
    requires AxisValid(a)
  {
    Axis(ResultOf(a) == "PASS", a.blocking.value)
  }

  function ReviewOf(input: ReviewInput): Result<ReviewEvidence, Refused> {
    if !IsFingerprint(Trim(input.target)) || !AxisValid(input.standards) || !AxisValid(input.spec)
    then Err(InvalidReviewEvidence)
    else Ok(ReviewEvidence(Trim(input.target), AxisOf(input.standards), AxisOf(input.spec)))
  }

  function Merged(artifacts: map<string, string>, more: seq<(string, string)>): map<string, string>
    decreases |more|
  {
    if more == [] then artifacts
    else if Trim(more[0].0) == "" || Trim(more[0].1) == "" then Merged(artifacts, more[1..])
    else Merged(artifacts[Trim(more[0].0) := Trim(more[0].1)], more[1..])
  }

  function LinkRefusal(ids: seq<string>, tasks: map<string, LinkedTask>, repo: string): Option<Refused> {
    if ids == [] then None
    else if ids[0] !in tasks then Some(TaskNotFound)
    else if tasks[ids[0]].repo != repo then Some(TaskRepoMismatch)
    else LinkRefusal(ids[1..], tasks, repo)
  }

  function WithAssessment(w: Workflow, span: Option<Span>, clarity: Option<Clarity>): Workflow {
    w.(span := if span.Some? then span.value else w.span,
       clarity := if clarity.Some? then clarity.value else w.clarity)
  }

  function WithDecisions(w: Workflow, values: Option<seq<string>>): Workflow {
    if values.None? then w
    else
      var clean := CleanList(values.value);
      w.(openDecisions := clean, settled := w.settled && clean == [])
  }

  function WithArtifacts(w: Workflow, more: Option<seq<(string, string)>>): Workflow {
    if more.None? then w else w.(artifacts := Merged(w.artifacts, more.value))
  }

  function WithTasks(w: Workflow, ids: Option<seq<string>>): Workflow {
    if ids.None? then w else w.(taskIds := CleanList(ids.value), implementation := None, review := None)
  }

  predicate ChangesNothing(args: UpdateArgs) {
    && args.span.None? && args.clarity.None? && args.openDecisions.None? && args.artifacts.None?
    && args.taskIds.None? && args.review.None? && Trim(args.note) == ""
  }

  function UpdateRefusal(w: Workflow, args: UpdateArgs, env: Env): Option<Refused> {
    if w.phase == Done then Some(WorkflowComplete)
    else if args.taskIds.Some? && LinkRefusal(CleanList(args.taskIds.value), env.tasks, w.repo).Some?
    then LinkRefusal(CleanList(args.taskIds.value), env.tasks, w.repo)
    else if args.review.Some? && ReviewOf(args.review.value).Err? then Some(InvalidReviewEvidence)
    else if ChangesNothing(args) then Some(UpdateEmpty)
    else None
  }

  function Updated(w: Workflow, args: UpdateArgs): Workflow
    requires args.review.Some? ==> ReviewOf(args.review.value).Ok?
  {
    var d := WithTasks(WithArtifacts(WithDecisions(WithAssessment(w, args.span, args.clarity), args.openDecisions),
                                     args.artifacts), args.taskIds);
    var e := if args.review.Some? then d.(review := Some(ReviewOf(args.review.value).value)) else d;
    e.(history := Pushed(w.history, Entry(Progress, Some(w.phase), w.phase)))
  }

  // ----- Advancing -----

  datatype AdvanceArgs = AdvanceArgs(
    event: Event,
    span: Option<Span>,
    clarity: Option<Clarity>,
    openDecisions: Option<seq<string>>)

  /** The caller's reassessment, stored before the event is judged. */
  function Prepared(w: Workflow, args: AdvanceArgs): Workflow {
    var d := WithAssessment(w, args.span, args.clarity);
    if args.openDecisions.Some? then d.(openDecisions := args.openDecisions.value) else d
  }

  function UnitOf(id: string, tasks: map<string, LinkedTask>, repo: string): Result<Unit, Refused> {
    if id !in tasks then Err(TaskNotFound)
    else if tasks[id].repo != repo then Err(TaskRepoMismatch)
    else
      var t := tasks[id].task;
      if t.status != Task.Completed then Err(ImplementationIncomplete)
      else if t.contract.Some? && !t.verified then Err(ImplementationNotVerified)
      else if t.outcome == Some("COMMIT") && Truthy(t.finalCommit) && Truthy(t.retentionRef)
      then Ok(CommitUnit(id, t.finalCommit.value, t.retentionRef.value))
      else if t.outcome == Some("NO_CHANGE") && t.outcomeReason.Some? && Trim(t.outcomeReason.value) != ""
      then Ok(NoChangeUnit(id, Trim(t.outcomeReason.value)))
      else Err(ImplementationEvidenceInvalid)
  }

  function UnitsOf(ids: seq<string>, tasks: map<string, LinkedTask>, repo: string): Result<seq<Unit>, Refused> {
    if ids == [] then Ok([])
    else
      var first := UnitOf(ids[0], tasks, repo);
      if first.Err? then Err(first.error)
      else
        var rest := UnitsOf(ids[1..], tasks, repo);
        if rest.Err? then rest else Ok([first.value] + rest.value)
  }

  /** Puts a unit before the first one whose task does not come earlier. */
  function Placed(units: seq<Unit>, u: Unit): seq<Unit> {
    if units == [] || !Canonical.Less(units[0].task, u.task) then [u] + units
    else [units[0]] + Placed(units[1..], u)
  }

  /** A stable sort by task. */
  function SortedByTask(units: seq<Unit>): seq<Unit> {
    if units == [] then [] else Placed(SortedByTask(units[1..]), units[0])
  }

  /** The evidence of the linked tasks, or why it is not good enough. */
  function Captured(w: Workflow, env: Env): Result<Implementation, Refused> {
    var ids := Deduplicated(w.taskIds);
    var units := UnitsOf(ids, env.tasks, w.repo);
    if ids == [] then Err(EvidenceRequired)
    else if units.Err? then Err(units.error)
    else
      var sorted := SortedByTask(units.value);
      Ok(Implementation(env.fingerprint(sorted), sorted))
  }

  predicate AxisPasses(a: Axis) {
    a.pass && a.blocking == 0
  }

  function ReviewRefusal(w: Workflow): Option<Refused> {
    if w.implementation.None? then Some(EvidenceRequired)
    else if w.review.None? then Some(ReviewRequired)
    else if w.review.value.target != w.implementation.value.fingerprint then Some(ReviewTargetMismatch)
    else if !AxisPasses(w.review.value.standards) || !AxisPasses(w.review.value.spec) then Some(BlockingFindings)
    else None
  }

  /** The phase an event may come from; the two that may come from several are `Block` and `PrototypeNeeded`. */
  predicate MayHappenIn(e: Event, p: Phase) {
    match e
    case SetupComplete => p == Setup
    case GrillingComplete => p == Grilling
    case PrototypeNeeded => p == Grilling || p == Wayfinding
    case PrototypeComplete => p == Prototype
    case MapClear => p == Wayfinding
    case SpecComplete => p == Spec
    case TicketsComplete => p == Tickets
    case ImplementationComplete => p == Implement
    case ReviewPassed => p == Review
    case ReviewChangesRequested => p == Review
    case Block => p != Done && p != Blocked
    case Resume => p == Blocked
  }

  function GateRefusal(w: Workflow, spanNeeded: bool): Option<Refused> {
    if HasOpenDecisions(w) then Some(OpenDecisions)
    else if spanNeeded && w.span == UnknownSpan then Some(SpanRequired)
    else None
  }

  function EventRefusal(w: Workflow, e: Event, env: Env): Option<Refused> {
    if !MayHappenIn(e, w.phase) then Some(InvalidTransition)
    else
      match e
      case SetupComplete => if env.configured then None else Some(SetupIncomplete)
      case GrillingComplete => GateRefusal(w, true)
      case MapClear => GateRefusal(w, false)
      case SpecComplete => GateRefusal(w, true)
      case ImplementationComplete =>
        if w.taskIds != [] && Captured(w, env).Err? then Some(Captured(w, env).error) else None
      case ReviewPassed => if w.implementation.Some? then ReviewRefusal(w) else None
      case _ => None
  }

  function OrGrilling(p: Option<Phase>): Phase {
    if p.Some? then p.value else Grilling
  }

  function Next(w: Workflow, e: Event, env: Env): Workflow
    requires EventRefusal(w, e, env).None?
  {
    match e
    case SetupComplete => w.(setupConfigured := true, phase := OrGrilling(w.afterSetup), afterSetup := None)
    case PrototypeNeeded => w.(returnPhase := Some(w.phase), phase := Prototype)
    case PrototypeComplete => w.(phase := OrGrilling(w.returnPhase), returnPhase := None)
    case GrillingComplete => w.(settled := true, phase := if w.span == MultiSession then Spec else Implement)
    case MapClear => w.(settled := true, clarity := Clear, phase := Spec)
    case SpecComplete => w.(settled := true, phase := if w.span == MultiSession then Tickets else Implement)
    case TicketsComplete => w.(phase := Implement)
    case ImplementationComplete =>
      w.(implementation := if w.taskIds != [] then Some(Captured(w, env).value) else w.implementation,
         review := None, phase := Review)
    case ReviewPassed => w.(phase := Done)
    case ReviewChangesRequested => w.(implementation := None, review := None, phase := Implement)
    case Block => w.(returnPhase := Some(w.phase), phase := Blocked)
    case Resume => w.(phase := OrGrilling(w.returnPhase), returnPhase := None)
  }

  function AdvanceRefusal(w: Workflow, args: AdvanceArgs, env: Env): Option<Refused> {
    EventRefusal(Prepared(w, args), args.event, env)
  }

  function Advanced(w: Workflow, args: AdvanceArgs, env: Env): Workflow
    requires AdvanceRefusal(w, args, env).None?
  {
    var n := Next(Prepared(w, args), args.event, env);
    n.(history := Pushed(w.history, Entry(Moved(args.event), Some(w.phase), n.phase)))
  }
}
