/** What holds over every run of a workflow, whatever calls are made in whatever order. */
module WorkflowRuns {
  import opened Base
  import opened Workflow
  import Task
  import Laws = WorkflowLaws
  import Units = WorkflowUnits

  /** `fingerprint` is how every capture hashes its units. */
  datatype World = World(workflow: Workflow, tasks: map<string, LinkedTask>, fingerprint: seq<Unit> -> string)

  /** A call of the service, or a change of the tasks it looks at. */
  datatype Call =
    | Advances(args: AdvanceArgs, configured: bool)
    | Updates(update: UpdateArgs)
    | TasksMove(tasks: map<string, LinkedTask>)

  /** Tasks are never forgotten and a finalised one is frozen, as the Task lifecycle guarantees. */
  ghost predicate Evolve(tasks: map<string, LinkedTask>, tasks': map<string, LinkedTask>) {
    forall id | id in tasks ::
      && id in tasks' && tasks'[id].repo == tasks[id].repo
      && (tasks[id].task.status != Task.Active ==> Task.Frozen(tasks[id].task, tasks'[id].task))
  }

  ghost predicate Enabled(w: World, c: Call) {
    c.TasksMove? ==> Evolve(w.tasks, c.tasks)
  }

  function EnvOf(w: World, c: Call): Env
    requires c.Advances?
  {
    Env(w.tasks, c.configured, w.fingerprint)
  }

  function UpdateEnv(w: World): Env {
    Env(w.tasks, false, w.fingerprint)
  }

  predicate Accepted(w: World, c: Call) {
    match c
    case Advances(args, _) => AdvanceRefusal(w.workflow, args, EnvOf(w, c)).None?
    case Updates(update) => UpdateRefusal(w.workflow, update, UpdateEnv(w)).None?
    case TasksMove(_) => true
  }

  function Apply(w: World, c: Call): World {
    if !Accepted(w, c) then w
    else
      match c
      case Advances(args, _) => w.(workflow := Advanced(w.workflow, args, EnvOf(w, c)))
      case Updates(update) => w.(workflow := Updated(w.workflow, update))
      case TasksMove(tasks) => w.(tasks := tasks)
  }

  ghost predicate StepsTo(w: World, c: Call, w': World) {
    Enabled(w, c) && w' == Apply(w, c)
  }

  ghost predicate IsRun(start: StartArgs, configured: bool, ws: seq<World>, cs: seq<Call>) {
    && |ws| == |cs| + 1 && StartRefusal(None, start).None?
    && ws[0].workflow == NewWorkflow(start, configured)
    && forall k {:trigger cs[k]} | 0 <= k < |cs| :: StepsTo(ws[k], cs[k], ws[k + 1])
  }

  /** The event a call carries, if it is accepted in state `w`. */
  function EventOf(w: World, c: Call): Option<Event> {
    if c.Advances? && Accepted(w, c) then Some(c.args.event) else None
  }

  predicate Moves(w: World, c: Call, e: Event) {
    EventOf(w, c) == Some(e)
  }

  // ----- What a call does to the phase and the return slots -----

  datatype Slots = Slots(phase: Phase, returnPhase: Option<Phase>, afterSetup: Option<Phase>)

  function SlotsOf(w: Workflow): Slots {
    Slots(w.phase, w.returnPhase, w.afterSetup)
  }

  /** The control part of each event. */
  ghost predicate SlotStep(s: Slots, e: Event, t: Slots) {
    && MayHappenIn(e, s.phase)
    && match e
       case SetupComplete => t == s.(phase := OrGrilling(s.afterSetup), afterSetup := None)
       case PrototypeNeeded => t == s.(phase := Prototype, returnPhase := Some(s.phase))
       case PrototypeComplete => t == s.(phase := OrGrilling(s.returnPhase), returnPhase := None)
       case GrillingComplete => t == s.(phase := t.phase) && t.phase in {Spec, Implement}
       case MapClear => t == s.(phase := Spec)
       case SpecComplete => t == s.(phase := t.phase) && t.phase in {Tickets, Implement}
       case TicketsComplete => t == s.(phase := Implement)
       case ImplementationComplete => t == s.(phase := Review)
       case ReviewPassed => t == s.(phase := Done)
       case ReviewChangesRequested => t == s.(phase := Implement)
       case Block => t == s.(phase := Blocked, returnPhase := Some(s.phase))
       case Resume => t == s.(phase := OrGrilling(s.returnPhase), returnPhase := None)
  }

  /** What one call does to the control part. */
  ghost predicate SlotMove(s: Slots, e: Option<Event>, t: Slots) {
    if e.Some? then SlotStep(s, e.value, t) else t == s
  }

  lemma {:induction false} NextMovesSlots(w: Workflow, e: Event, env: Env)
    requires EventRefusal(w, e, env).None?
    ensures SlotStep(SlotsOf(w), e, SlotsOf(Next(w, e, env)))
  {
  }

  lemma {:induction false} PreparedKeepsSlots(w: Workflow, args: AdvanceArgs)
    ensures SlotsOf(Prepared(w, args)) == SlotsOf(w)
    ensures Prepared(w, args).implementation == w.implementation && Prepared(w, args).taskIds == w.taskIds
    ensures Prepared(w, args).review == w.review && Prepared(w, args).repo == w.repo
  {
  }

  lemma {:induction false} UpdatedKeepsSlots(w: Workflow, args: UpdateArgs)
    requires args.review.Some? ==> ReviewOf(args.review.value).Ok?
    ensures SlotsOf(Updated(w, args)) == SlotsOf(w) && Updated(w, args).repo == w.repo
    ensures Updated(w, args).history == Pushed(w.history, Entry(Progress, Some(w.phase), w.phase))
    ensures Updated(w, args).implementation == if args.taskIds.Some? then None else w.implementation
    ensures args.taskIds.None? ==> Updated(w, args).taskIds == w.taskIds
  {
  }

  lemma {:induction false} ApplyMovesSlots(w: World, c: Call)
    ensures SlotMove(SlotsOf(w.workflow), EventOf(w, c), SlotsOf(Apply(w, c).workflow))
  {
    if c.Advances? && Accepted(w, c) {
      PreparedKeepsSlots(w.workflow, c.args);
      NextMovesSlots(Prepared(w.workflow, c.args), c.args.event, EnvOf(w, c));
    } else if c.Updates? && Accepted(w, c) {
      UpdatedKeepsSlots(w.workflow, c.update);
    }
  }

  /** A run reduced to its control part. */
  ghost predicate IsTrace(ss: seq<Slots>, es: seq<Option<Event>>) {
    |ss| == |es| + 1 && forall k {:trigger es[k]} | 0 <= k < |es| :: SlotMove(ss[k], es[k], ss[k + 1])
  }

  /** The control part of a run. */
  ghost predicate TraceOf(ws: seq<World>, cs: seq<Call>, ss: seq<Slots>, es: seq<Option<Event>>) {
    && |ss| == |ws| && |es| == |cs| && |ws| == |cs| + 1
    && (forall k | 0 <= k < |ws| :: ss[k] == SlotsOf(ws[k].workflow))
    && (forall k | 0 <= k < |cs| :: es[k] == EventOf(ws[k], cs[k]))
  }

  lemma {:induction false} RunTrace(start: StartArgs, configured: bool, ws: seq<World>, cs: seq<Call>)
    returns (ss: seq<Slots>, es: seq<Option<Event>>)
    requires IsRun(start, configured, ws, cs)
    ensures TraceOf(ws, cs, ss, es) && IsTrace(ss, es)
  {
    ss := seq(|ws|, k requires 0 <= k < |ws| => SlotsOf(ws[k].workflow));
    es := seq(|cs|, k requires 0 <= k < |cs| => EventOf(ws[k], cs[k]));
    forall k | 0 <= k < |es| ensures SlotMove(ss[k], es[k], ss[k + 1]) {
      assert StepsTo(ws[k], cs[k], ws[k + 1]);
      ApplyMovesSlots(ws[k], cs[k]);
    }
  }

  // ----- The shape of every reachable workflow -----

  /** The retained history is a chain of phases that ends at the current one. */
  ghost predicate ChainOk(history: seq<Entry>, phase: Phase) {
    && 0 < |history| <= MAX_HISTORY && history[|history| - 1].phase == phase
    && forall i | 0 <= i < |history| - 1 :: history[i + 1].from == Some(history[i].phase)
  }

  /** The slot for the phase to return to is filled exactly where something will return. */
  ghost predicate SlotOk(s: Slots) {
    && (s.phase == Blocked ==> s.returnPhase.Some? && s.returnPhase.value != Blocked && s.returnPhase.value != Done)
    && (s.phase == Prototype ==> s.returnPhase in {None, Some(Grilling), Some(Wayfinding)})
    && (s.phase != Blocked && s.phase != Prototype ==> s.returnPhase == None)
    && (s.afterSetup.Some? <==> s.phase == Setup || s.returnPhase == Some(Setup))
    && (s.afterSetup in {None, Some(Spec), Some(Implement), Some(Wayfinding), Some(Grilling)})
  }

  /** Captured evidence is what a capture would find, now as then. */
  ghost predicate EvidenceOk(w: World) {
    w.workflow.implementation.Some? ==>
      Captured(w.workflow, Env(w.tasks, false, w.fingerprint)) == Ok(w.workflow.implementation.value)
  }

  ghost predicate DoneOk(w: Workflow) {
    w.phase == Done && w.implementation.Some? ==> ReviewRefusal(w).None?
  }

  /** What the stored document keeps, whatever the tasks do. */
  ghost predicate ShapeOk(w: Workflow) {
    ChainOk(w.history, w.phase) && SlotOk(SlotsOf(w)) && DoneOk(w)
  }

  ghost predicate WorldOk(w: World) {
    ShapeOk(w.workflow) && EvidenceOk(w)
  }

  lemma {:induction false} PushKeepsChain(history: seq<Entry>, phase: Phase, entry: Entry)
    requires ChainOk(history, phase) && entry.from == Some(phase)
    ensures ChainOk(Pushed(history, entry), entry.phase)
  {
  }

  lemma {:induction false} UnitStays(id: string, tasks: map<string, LinkedTask>, tasks': map<string, LinkedTask>,
                                     repo: string)
    requires Evolve(tasks, tasks') && UnitOf(id, tasks, repo).Ok?
    ensures UnitOf(id, tasks', repo) == UnitOf(id, tasks, repo)
  {
  }

  lemma {:induction false} UnitsStay(ids: seq<string>, tasks: map<string, LinkedTask>,
                                     tasks': map<string, LinkedTask>, repo: string)
    requires Evolve(tasks, tasks') && UnitsOf(ids, tasks, repo).Ok?
    ensures UnitsOf(ids, tasks', repo) == UnitsOf(ids, tasks, repo)
  {
    if ids != [] {
      UnitStays(ids[0], tasks, tasks', repo);
      UnitsStay(ids[1..], tasks, tasks', repo);
    }
  }

  lemma {:induction false} SlotsStayOk(s: Slots, e: Event, t: Slots)
    requires SlotOk(s) && SlotStep(s, e, t)
    ensures SlotOk(t)
  {
  }

  lemma {:induction false} NextKeepsEvidence(w: World, p: Workflow, e: Event, env: Env)
    requires EvidenceOk(w.(workflow := p)) && EventRefusal(p, e, env).None? && env.tasks == w.tasks
    requires env.fingerprint == w.fingerprint
    ensures EvidenceOk(w.(workflow := Next(p, e, env)))
  {
  }

  lemma {:induction false} NextIsReviewed(p: Workflow, e: Event, env: Env)
    requires SlotOk(SlotsOf(p)) && EventRefusal(p, e, env).None?
    ensures DoneOk(Next(p, e, env))
  {
  }

  lemma {:induction false} NewIsOk(args: StartArgs, configured: bool)
    ensures ShapeOk(NewWorkflow(args, configured))
  {
  }

  lemma {:induction false} AdvancedOk(w: Workflow, args: AdvanceArgs, env: Env)
    requires ShapeOk(w) && AdvanceRefusal(w, args, env).None?
    ensures ShapeOk(Advanced(w, args, env)) && Edge(w.phase, args.event, Advanced(w, args, env).phase)
  {
    var p, q := Prepared(w, args), Next(Prepared(w, args), args.event, env);
    PreparedKeepsSlots(w, args);
    NextMovesSlots(p, args.event, env);
    SlotsStayOk(SlotsOf(w), args.event, SlotsOf(q));
    SlotsMoveAlongEdges(SlotsOf(w), args.event, SlotsOf(q));
    NextIsReviewed(p, args.event, env);
    PushKeepsChain(w.history, w.phase, Entry(Moved(args.event), Some(w.phase), q.phase));
  }

  lemma {:induction false} UpdatedOk(w: Workflow, args: UpdateArgs)
    requires ShapeOk(w) && w.phase != Done && (args.review.Some? ==> ReviewOf(args.review.value).Ok?)
    ensures ShapeOk(Updated(w, args)) && Updated(w, args).phase == w.phase
  {
    UpdatedKeepsSlots(w, args);
    PushKeepsChain(w.history, w.phase, Entry(Progress, Some(w.phase), w.phase));
  }

  lemma {:induction false} AdvanceKeeps(w: World, c: Call)
    requires WorldOk(w) && c.Advances? && Accepted(w, c)
    ensures WorldOk(Apply(w, c))
  {
    var p := Prepared(w.workflow, c.args);
    AdvancedOk(w.workflow, c.args, EnvOf(w, c));
    PreparedKeepsSlots(w.workflow, c.args);
    assert EvidenceOk(w.(workflow := p));
    NextKeepsEvidence(w, p, c.args.event, EnvOf(w, c));
  }

  lemma {:induction false} UpdateKeeps(w: World, c: Call)
    requires WorldOk(w) && c.Updates? && Accepted(w, c)
    ensures WorldOk(Apply(w, c))
  {
    UpdatedKeepsSlots(w.workflow, c.update);
    UpdatedOk(w.workflow, c.update);
  }

  lemma {:induction false} StepKeepsWorld(w: World, c: Call)
    requires WorldOk(w) && Enabled(w, c)
    ensures WorldOk(Apply(w, c))
  {
    if Accepted(w, c) {
      match c {
        case Advances(_, _) =>
          AdvanceKeeps(w, c);
        case Updates(_) =>
          UpdateKeeps(w, c);
        case TasksMove(tasks) =>
          if w.workflow.implementation.Some? {
            UnitsStay(Deduplicated(w.workflow.taskIds), w.tasks, tasks, w.workflow.repo);
          }
      }
    }
  }

  lemma {:induction false} RunOk(start: StartArgs, configured: bool, ws: seq<World>, cs: seq<Call>, k: nat)
    requires IsRun(start, configured, ws, cs) && k < |ws|
    ensures WorldOk(ws[k])
  {
    if k > 0 {
      RunOk(start, configured, ws, cs, k - 1);
      assert StepsTo(ws[k - 1], cs[k - 1], ws[k]);
      StepKeepsWorld(ws[k - 1], cs[k - 1]);
    }
  }

  // ----- Theorems -----

  /** The retained history is a contiguous chain of phases ending at the current one,
      at most 200 entries long, however often it was cut. */
  lemma {:induction false} HistoryIsAChain(start: StartArgs, configured: bool, ws: seq<World>, cs: seq<Call>, k: nat)
    requires IsRun(start, configured, ws, cs) && k < |ws|
    ensures ChainOk(ws[k].workflow.history, ws[k].workflow.phase)
  {
    RunOk(start, configured, ws, cs, k);
  }

  /** The edges the phases can take, and the events that take them. */
  ghost predicate Edge(p: Phase, e: Event, q: Phase) {
    match e
    case SetupComplete => p == Setup && q in {Spec, Implement, Wayfinding, Grilling}
    case GrillingComplete => p == Grilling && q in {Spec, Implement}
    case PrototypeNeeded => p in {Grilling, Wayfinding} && q == Prototype
    case PrototypeComplete => p == Prototype && q in {Grilling, Wayfinding}
    case MapClear => p == Wayfinding && q == Spec
    case SpecComplete => p == Spec && q in {Tickets, Implement}
    case TicketsComplete => p == Tickets && q == Implement
    case ImplementationComplete => p == Implement && q == Review
    case ReviewPassed => p == Review && q == Done
    case ReviewChangesRequested => p == Review && q == Implement
    case Block => p !in {Blocked, Done} && q == Blocked
    case Resume => p == Blocked && q !in {Blocked, Done}
  }

  lemma {:induction false} SlotsMoveAlongEdges(s: Slots, e: Event, t: Slots)
    requires SlotOk(s) && SlotStep(s, e, t)
    ensures Edge(s.phase, e, t.phase)
  {
  }

  /** In every run the phase changes only along these edges; so `Done` is entered only
      from `Review`, by its passing event. */
  lemma {:induction false} PhasesMoveAlongEdges(
    start: StartArgs, configured: bool, ws: seq<World>, cs: seq<Call>, k: nat)
    requires IsRun(start, configured, ws, cs) && k < |cs|
    ensures
      var p, e, q := ws[k].workflow.phase, EventOf(ws[k], cs[k]), ws[k + 1].workflow.phase;
      if e.Some? then Edge(p, e.value, q) else q == p
  {
    RunOk(start, configured, ws, cs, k);
    var ss, es := RunTrace(start, configured, ws, cs);
    assert SlotMove(ss[k], es[k], ss[k + 1]);
    if es[k].Some? {
      SlotsMoveAlongEdges(ss[k], es[k].value, ss[k + 1]);
    }
  }

  /** What an accepted event of a run did, after the assessment that came with it. */
  lemma {:induction false} RunMoves(start: StartArgs, configured: bool, ws: seq<World>, cs: seq<Call>, k: nat)
    requires IsRun(start, configured, ws, cs) && k < |cs| && cs[k].Advances? && Accepted(ws[k], cs[k])
    ensures Laws.Advances(ws[k].workflow, cs[k].args, EnvOf(ws[k], cs[k]), None, ws[k + 1].workflow)
  {
    assert StepsTo(ws[k], cs[k], ws[k + 1]);
    Laws.AdvanceMeans(ws[k].workflow, cs[k].args, EnvOf(ws[k], cs[k]));
  }

  /** In every run a gate leads where the span then stored says: from grilling to the specification
      for several sessions and else to the implementation, from the specification to tickets or there. */
  lemma {:induction false} GatesLeadBySpan(start: StartArgs, configured: bool, ws: seq<World>, cs: seq<Call>, k: nat)
    requires IsRun(start, configured, ws, cs) && k < |cs|
    ensures Moves(ws[k], cs[k], GrillingComplete) ==>
      ws[k + 1].workflow.phase == if ws[k + 1].workflow.span == MultiSession then Spec else Implement
    ensures Moves(ws[k], cs[k], SpecComplete) ==>
      ws[k + 1].workflow.phase == if ws[k + 1].workflow.span == MultiSession then Tickets else Implement
    ensures Moves(ws[k], cs[k], GrillingComplete) || Moves(ws[k], cs[k], SpecComplete) ==>
      ws[k + 1].workflow.span != UnknownSpan
  {
    if cs[k].Advances? && Accepted(ws[k], cs[k]) {
      RunMoves(start, configured, ws, cs, k);
    }
  }

  /** Set aside until the setup is complete: the phase that span, clarity and settledness route to. */
  ghost predicate Awaits(start: StartArgs, s: Slots) {
    s.afterSetup.Some? ==>
      Laws.RoutesTo(start, s.afterSetup.value)
  }

  lemma {:induction false} TraceAwaits(start: StartArgs, ss: seq<Slots>, es: seq<Option<Event>>, k: nat)
    requires IsTrace(ss, es) && k < |ss| && Awaits(start, ss[0])
    ensures Awaits(start, ss[k])
  {
    if k > 0 {
      TraceAwaits(start, ss, es, k - 1);
      assert SlotMove(ss[k - 1], es[k - 1], ss[k]);
    }
  }

  lemma {:induction false} StartAwaits(start: StartArgs, configured: bool)
    ensures Awaits(start, SlotsOf(NewWorkflow(start, configured)))
    ensures configured ==>
      Laws.RoutesTo(start, NewWorkflow(start, configured).phase)
    ensures !configured ==> NewWorkflow(start, configured).phase == Setup
  {
    Laws.StartMeans(None, start, configured);
  }

  /** Every run begins, at once or after its setup, in the phase that this routing says. */
  lemma {:induction false} StartsWhereRouted(
    start: StartArgs, configured: bool, ws: seq<World>, cs: seq<Call>, k: nat)
    requires IsRun(start, configured, ws, cs) && k < |cs|
    ensures configured ==>
      Laws.RoutesTo(start, ws[0].workflow.phase)
    ensures !configured ==> ws[0].workflow.phase == Setup
    ensures Moves(ws[k], cs[k], SetupComplete) ==>
      Laws.RoutesTo(start, ws[k + 1].workflow.phase)
  {
    var ss, es := RunTrace(start, configured, ws, cs);
    StartAwaits(start, configured);
    TraceAwaits(start, ss, es, k);
    RunOk(start, configured, ws, cs, k);
    assert SlotMove(ss[k], es[k], ss[k + 1]);
  }

  lemma {:induction false} DoneRefuses(w: World, c: Call)
    requires w.workflow.phase == Done
    ensures Apply(w, c).workflow == w.workflow
  {
    if c.Advances? {
      PreparedKeepsSlots(w.workflow, c.args);
    }
  }

  lemma {:induction false} RunStep(start: StartArgs, configured: bool, ws: seq<World>, cs: seq<Call>, k: nat)
    requires IsRun(start, configured, ws, cs) && k < |cs|
    ensures ws[k + 1] == Apply(ws[k], cs[k])
  {
  }

  lemma {:induction false} DoneStays(start: StartArgs, configured: bool, ws: seq<World>, cs: seq<Call>, k: nat)
    requires IsRun(start, configured, ws, cs) && k < |cs| && ws[k].workflow.phase == Done
    ensures ws[k + 1].workflow == ws[k].workflow
  {
    RunStep(start, configured, ws, cs, k);
    DoneRefuses(ws[k], cs[k]);
  }

  /** A finished workflow never changes again, whatever is called. */
  lemma {:induction false} DoneIsFinal(
    start: StartArgs, configured: bool, ws: seq<World>, cs: seq<Call>, j: nat, k: nat)
    requires IsRun(start, configured, ws, cs) && j <= k < |ws| && ws[j].workflow.phase == Done
    ensures ws[k].workflow == ws[j].workflow
    decreases k - j
  {
    if j < k {
      DoneIsFinal(start, configured, ws, cs, j, k - 1);
      DoneStays(start, configured, ws, cs, k - 1);
    }
  }

  // ----- The gate -----

  predicate IsGate(e: Event) {
    e == GrillingComplete || e == MapClear || e == SpecComplete
  }

  /** A planning gate was passed with every open decision resolved. */
  ghost predicate PassesGate(w: World, c: Call, w': World) {
    && EventOf(w, c).Some? && IsGate(EventOf(w, c).value)
    && forall d | d in w'.workflow.openDecisions :: Blank(d)
  }

  predicate IsEarly(p: Phase) {
    p == Setup || p == Grilling || p == Wayfinding || p == Prototype
  }

  /** Still planning, blocked or not, and nothing to return to but planning. */
  ghost predicate Early(s: Slots) {
    && (IsEarly(s.phase) || s.phase == Blocked)
    && (s.returnPhase.Some? ==> IsEarly(s.returnPhase.value))
    && (s.afterSetup.Some? ==> IsEarly(s.afterSetup.value))
  }

  lemma {:induction false} AllBlank(values: seq<string>)
    requires TrimmedNonEmpty(values) == []
    ensures forall d | d in values :: Blank(d)
  {
    if values != [] {
      TrimOfBlank(values[0]);
      AllBlank(values[1..]);
      assert forall d | d in values :: d == values[0] || d in values[1..];
    }
  }

  lemma {:induction false} GatesResolve(w: World, c: Call)
    requires EventOf(w, c).Some? && IsGate(EventOf(w, c).value)
    ensures PassesGate(w, c, Apply(w, c))
  {
    AllBlank(Prepared(w.workflow, c.args).openDecisions);
  }

  lemma {:induction false} StartsEarly(start: StartArgs, configured: bool)
    requires !start.settled
    ensures Early(SlotsOf(NewWorkflow(start, configured)))
  {
  }

  lemma {:induction false} TraceStaysEarly(ss: seq<Slots>, es: seq<Option<Event>>, k: nat)
    requires IsTrace(ss, es) && k < |ss| && Early(ss[0])
    ensures Early(ss[k]) || exists j {:trigger es[j]} | 0 <= j < k :: es[j].Some? && IsGate(es[j].value)
  {
    if k > 0 {
      TraceStaysEarly(ss, es, k - 1);
      assert SlotMove(ss[k - 1], es[k - 1], ss[k]);
    }
  }

  lemma {:induction false} TraceGate(ss: seq<Slots>, es: seq<Option<Event>>, k: nat) returns (j: nat)
    requires IsTrace(ss, es) && k < |ss| && Early(ss[0])
    requires ss[k].phase in {Spec, Tickets, Implement, Review, Done}
    ensures j < k && es[j].Some? && IsGate(es[j].value)
  {
    TraceStaysEarly(ss, es, k);
    j :| 0 <= j < k && es[j].Some? && IsGate(es[j].value);
  }

  lemma {:induction false} GateAt(start: StartArgs, configured: bool, ws: seq<World>, cs: seq<Call>, j: nat)
    requires IsRun(start, configured, ws, cs) && j < |cs|
    requires EventOf(ws[j], cs[j]).Some? && IsGate(EventOf(ws[j], cs[j]).value)
    ensures PassesGate(ws[j], cs[j], ws[j + 1])
  {
    GatesResolve(ws[j], cs[j]);
    RunStep(start, configured, ws, cs, j);
  }

  /** A workflow that starts unsettled reaches specification, tickets, implementation,
      review or the end only after a gate was passed with no open decision. */
  lemma {:induction false} GateBeforeBuild(start: StartArgs, configured: bool, ws: seq<World>, cs: seq<Call>, k: nat)
    returns (j: nat)
    requires IsRun(start, configured, ws, cs) && k < |ws| && !start.settled
    requires ws[k].workflow.phase in {Spec, Tickets, Implement, Review, Done}
    ensures j < k && PassesGate(ws[j], cs[j], ws[j + 1])
  {
    var ss, es := RunTrace(start, configured, ws, cs);
    StartsEarly(start, configured);
    j := TraceGate(ss, es, k);
    assert es[j] == EventOf(ws[j], cs[j]);
    GateAt(start, configured, ws, cs, j);
  }

  // ----- Returning -----

  /** The first resume after a block brings the workflow back to the phase it was blocked in. */
  lemma {:induction false} ResumeRestores(
    start: StartArgs, configured: bool, ws: seq<World>, cs: seq<Call>, j: nat, k: nat)
    requires IsRun(start, configured, ws, cs) && j < k < |cs|
    requires Moves(ws[j], cs[j], Block) && Moves(ws[k], cs[k], Resume)
    requires forall i {:trigger cs[i]} | j < i < k :: !Moves(ws[i], cs[i], Resume)
    ensures ws[k + 1].workflow.phase == ws[j].workflow.phase
  {
    var ss, es := RunTrace(start, configured, ws, cs);
    assert forall i {:trigger es[i]} | j < i < k :: es[i] == EventOf(ws[i], cs[i]) != Some(Resume);
    StaysBlocked(ss, es, j, k);
    assert SlotMove(ss[k], es[k], ss[k + 1]);
  }

  lemma {:induction false} StaysBlocked(ss: seq<Slots>, es: seq<Option<Event>>, j: nat, k: nat)
    requires IsTrace(ss, es) && j < k < |ss| && es[j] == Some(Block)
    requires forall i {:trigger es[i]} | j < i < k :: es[i] != Some(Resume)
    ensures ss[k].phase == Blocked && ss[k].returnPhase == Some(ss[j].phase)
    decreases k - j
  {
    assert SlotMove(ss[k - 1], es[k - 1], ss[k]);
    if j < k - 1 {
      StaysBlocked(ss, es, j, k - 1);
    }
  }

  /** Some accepted call strictly between two others carried the event. */
  ghost predicate Between(ws: seq<World>, cs: seq<Call>, j: nat, k: nat, e: Event)
    requires k <= |cs| < |ws|
  {
    exists i {:trigger cs[i]} | j < i < k :: Moves(ws[i], cs[i], e)
  }

  ghost predicate EventBetween(es: seq<Option<Event>>, j: nat, k: nat, e: Event)
    requires k <= |es|
  {
    exists i {:trigger es[i]} | j < i < k :: es[i] == Some(e)
  }

  lemma {:induction false} BetweenInTrace(
    ws: seq<World>, cs: seq<Call>, ss: seq<Slots>, es: seq<Option<Event>>, j: nat, k: nat, e: Event)
    requires TraceOf(ws, cs, ss, es) && k <= |cs|
    ensures Between(ws, cs, j, k, e) <==> EventBetween(es, j, k, e)
  {
  }

  /** A prototype ends in the planning phase that asked for it exactly when that is grilling
      or nothing was blocked meanwhile: a block takes the slot, and grilling is the fallback. */
  lemma {:induction false} PrototypeReturns(
    start: StartArgs, configured: bool, ws: seq<World>, cs: seq<Call>, j: nat, k: nat)
    requires IsRun(start, configured, ws, cs) && j < k < |cs|
    requires Moves(ws[j], cs[j], PrototypeNeeded) && Moves(ws[k], cs[k], PrototypeComplete)
    requires !Between(ws, cs, j, k, PrototypeComplete)
    ensures ws[k + 1].workflow.phase == ws[j].workflow.phase <==>
            ws[j].workflow.phase == Grilling || !Between(ws, cs, j, k, Block)
    ensures Between(ws, cs, j, k, Block) ==> ws[k + 1].workflow.phase == Grilling
  {
    var ss, es := RunTrace(start, configured, ws, cs);
    BetweenInTrace(ws, cs, ss, es, j, k, PrototypeComplete);
    BetweenInTrace(ws, cs, ss, es, j, k, Block);
    InsidePrototype(ss, es, j, k);
    assert SlotMove(ss[j], es[j], ss[j + 1]) && SlotMove(ss[k], es[k], ss[k + 1]);
  }

  ghost predicate InPrototype(s: Slots, from: Phase, interrupted: bool) {
    if interrupted
    then (s.phase == Blocked && s.returnPhase == Some(Prototype)) || (s.phase == Prototype && s.returnPhase == None)
    else s.phase == Prototype && s.returnPhase == Some(from)
  }

  lemma {:induction false} InsidePrototype(ss: seq<Slots>, es: seq<Option<Event>>, j: nat, k: nat)
    requires IsTrace(ss, es) && j < k <= |es| && es[j] == Some(PrototypeNeeded)
    requires !EventBetween(es, j, k, PrototypeComplete)
    ensures InPrototype(ss[k], ss[j].phase, EventBetween(es, j, k, Block))
    decreases k - j
  {
    assert SlotMove(ss[k - 1], es[k - 1], ss[k]);
    if j < k - 1 {
      assert es[k - 1] != Some(PrototypeComplete);
      assert !EventBetween(es, j, k - 1, PrototypeComplete);
      InsidePrototype(ss, es, j, k - 1);
      assert EventBetween(es, j, k, Block) <==> EventBetween(es, j, k - 1, Block) || es[k - 1] == Some(Block);
    }
  }

  // ----- Evidence and review -----

  /** Different units have different fingerprints, as of a hash that nobody can collide. */
  ghost predicate Injective(fingerprint: seq<Unit> -> string) {
    forall a, b :: fingerprint(a) == fingerprint(b) ==> a == b
  }

  /** A finished workflow with implementation evidence was reviewed on exactly that evidence,
      on both axes and without blocking findings; and each linked task is, even now, a
      completed task of this repository with a commit or a reason, verified if it had a contract. */
  lemma {:induction false} DoneMeansReviewed(
    start: StartArgs, configured: bool, ws: seq<World>, cs: seq<Call>, k: nat, id: string)
    requires IsRun(start, configured, ws, cs) && k < |ws|
    requires ws[k].workflow.phase == Done && ws[k].workflow.implementation.Some?
    ensures ws[k].workflow.review.Some?
    ensures
      var review := ws[k].workflow.review.value;
      && review.target == ws[k].workflow.implementation.value.fingerprint
      && review.standards == Axis(true, 0) && review.spec == Axis(true, 0)
    ensures id in ws[k].workflow.taskIds ==>
      && id in ws[k].tasks && ws[k].tasks[id].repo == ws[k].workflow.repo
      && ws[k].tasks[id].task.status == Task.Completed
      && (ws[k].tasks[id].task.contract.Some? ==> ws[k].tasks[id].task.verified)
      && ws[k].tasks[id].task.outcome in {Some("COMMIT"), Some("NO_CHANGE")}
  {
    RunOk(start, configured, ws, cs, k);
    Units.CapturedWhenAllAre(ws[k].workflow, Env(ws[k].tasks, false, ws[k].fingerprint));
    if id in ws[k].workflow.taskIds {
      assert UnitOf(id, ws[k].tasks, ws[k].workflow.repo).Ok?;
    }
  }

  /** And the reviewed target says what was reviewed: whatever units have that fingerprint are
      the units of the linked tasks, each as the task stands even now, and nothing else. */
  lemma {:induction false} ReviewedTargetIsTheWork(
    start: StartArgs, configured: bool, ws: seq<World>, cs: seq<Call>, k: nat, units: seq<Unit>, u: Unit)
    requires IsRun(start, configured, ws, cs) && k < |ws| && Injective(ws[k].fingerprint)
    requires ws[k].workflow.phase == Done && ws[k].workflow.implementation.Some?
    requires ws[k].workflow.review.Some? ==> ws[k].fingerprint(units) == ws[k].workflow.review.value.target
    ensures u in units <==>
      u.task in ws[k].workflow.taskIds && UnitOf(u.task, ws[k].tasks, ws[k].workflow.repo) == Ok(u)
    ensures Units.Ascending(units)
  {
    RunOk(start, configured, ws, cs, k);
    Units.CapturedUnits(ws[k].workflow, Env(ws[k].tasks, false, ws[k].fingerprint), u);
  }

  predicate Relinks(w: World, c: Call) {
    c.Updates? && c.update.taskIds.Some? && Accepted(w, c)
  }

  /** Some accepted update replaced the linked tasks between two calls. */
  ghost predicate RelinkedBetween(ws: seq<World>, cs: seq<Call>, j: nat, k: nat)
    requires k <= |cs| < |ws|
  {
    exists i {:trigger cs[i]} | j < i < k :: Relinks(ws[i], cs[i])
  }

  /** A flag that only a cut clears, seen over a stretch of steps. */
  lemma {:induction false} ClearedByCuts(flags: seq<bool>, cuts: seq<bool>, j: nat, k: nat)
    requires |flags| == |cuts| + 1 && j < k <= |cuts|
    requires forall i {:trigger cuts[i]} | j < i < k :: flags[i + 1] == (flags[i] && !cuts[i])
    ensures flags[k] <==> flags[j + 1] && !exists i | j < i < k :: cuts[i]
    decreases k - j
  {
    if j < k - 1 {
      ClearedByCuts(flags, cuts, j, k - 1);
      assert cuts[k - 1] ==> exists i | j < i < k :: cuts[i];
    }
  }

  /** Where a run has evidence, and where it relinks tasks. */
  ghost predicate FlagsOf(ws: seq<World>, cs: seq<Call>, flags: seq<bool>, cuts: seq<bool>) {
    && |flags| == |ws| && |cuts| == |cs| && |ws| == |cs| + 1
    && (forall i | 0 <= i < |ws| :: flags[i] == ws[i].workflow.implementation.Some?)
    && (forall i {:trigger cuts[i]} | 0 <= i < |cs| :: cuts[i] == Relinks(ws[i], cs[i]))
  }

  lemma {:induction false} RunFlags(ws: seq<World>, cs: seq<Call>) returns (flags: seq<bool>, cuts: seq<bool>)
    requires |ws| == |cs| + 1
    ensures FlagsOf(ws, cs, flags, cuts)
  {
    flags := seq(|ws|, i requires 0 <= i < |ws| => ws[i].workflow.implementation.Some?);
    cuts := seq(|cs|, i requires 0 <= i < |cs| => Relinks(ws[i], cs[i]));
  }

  lemma {:induction false} FlagStep(
    start: StartArgs, configured: bool, ws: seq<World>, cs: seq<Call>, flags: seq<bool>, cuts: seq<bool>, i: nat)
    requires IsRun(start, configured, ws, cs) && i < |cs| && InReview(ws[i]) && InReview(ws[i + 1])
    requires FlagsOf(ws, cs, flags, cuts)
    ensures flags[i + 1] == (flags[i] && !cuts[i])
  {
    ReviewStepAt(start, configured, ws, cs, i);
  }

  /** While a review lasts, the evidence it must match is there exactly when tasks were linked
      at implementation's end and have not been linked anew: relinking drops it. */
  lemma {:induction false} EvidenceDuringReview(
    start: StartArgs, configured: bool, ws: seq<World>, cs: seq<Call>, j: nat, k: nat)
    requires IsRun(start, configured, ws, cs) && j < k <= |cs| && Moves(ws[j], cs[j], ImplementationComplete)
    requires forall i | j < i <= k :: InReview(ws[i])
    ensures ws[k].workflow.implementation.Some? <==>
            ws[j].workflow.taskIds != [] && !RelinkedBetween(ws, cs, j, k)
  {
    var flags, cuts := RunFlags(ws, cs);
    CompletionAt(start, configured, ws, cs, j);
    forall i {:trigger cuts[i]} | j < i < k ensures flags[i + 1] == (flags[i] && !cuts[i]) {
      FlagStep(start, configured, ws, cs, flags, cuts, i);
    }
    ClearedByCuts(flags, cuts, j, k);
    CutsAreRelinks(ws, cs, cuts, j, k);
  }

  lemma {:induction false} CutsAreRelinks(ws: seq<World>, cs: seq<Call>, cuts: seq<bool>, j: nat, k: nat)
    requires |cuts| == |cs| < |ws| && k <= |cs|
    requires forall i {:trigger cuts[i]} | 0 <= i < |cs| :: cuts[i] == Relinks(ws[i], cs[i])
    ensures RelinkedBetween(ws, cs, j, k) <==> exists i | j < i < k :: cuts[i]
  {
    if i {:trigger cs[i]} :| j < i < k && Relinks(ws[i], cs[i]) {
      assert cuts[i];
    }
    if i :| j < i < k && cuts[i] {
      assert Relinks(ws[i], cs[i]);
    }
  }

  lemma {:induction false} ReviewStepAt(start: StartArgs, configured: bool, ws: seq<World>, cs: seq<Call>, k: nat)
    requires IsRun(start, configured, ws, cs) && k < |cs| && InReview(ws[k]) && InReview(ws[k + 1])
    ensures ws[k + 1].workflow.implementation.Some? <==>
            ws[k].workflow.implementation.Some? && !Relinks(ws[k], cs[k])
  {
    RunStep(start, configured, ws, cs, k);
    ReviewStep(ws[k], cs[k]);
  }

  lemma {:induction false} CompletionAt(start: StartArgs, configured: bool, ws: seq<World>, cs: seq<Call>, k: nat)
    requires IsRun(start, configured, ws, cs) && k < |cs| && Moves(ws[k], cs[k], ImplementationComplete)
    ensures ws[k + 1].workflow.implementation.Some? <==> ws[k].workflow.taskIds != []
  {
    RunOk(start, configured, ws, cs, k);
    RunStep(start, configured, ws, cs, k);
    CompletionCaptures(ws[k], cs[k]);
  }

  /** In review, or blocked during one. */
  predicate InReview(w: World) {
    w.workflow.phase == Review || w.workflow.phase == Blocked
  }

  lemma {:induction false} CompletionCaptures(w: World, c: Call)
    requires Moves(w, c, ImplementationComplete) && EvidenceOk(w)
    ensures Apply(w, c).workflow.implementation.Some? <==> w.workflow.taskIds != []
  {
  }

  lemma {:induction false} NextKeepsImplementation(p: Workflow, e: Event, env: Env)
    requires EventRefusal(p, e, env).None? && e != ImplementationComplete && e != ReviewChangesRequested
    ensures Next(p, e, env).implementation == p.implementation
  {
  }

  lemma {:induction false} ReviewStep(w: World, c: Call)
    requires InReview(w) && InReview(Apply(w, c))
    ensures Apply(w, c).workflow.implementation.Some? <==> w.workflow.implementation.Some? && !Relinks(w, c)
  {
    ApplyMovesSlots(w, c);
    if c.Advances? && Accepted(w, c) {
      PreparedKeepsSlots(w.workflow, c.args);
      NextKeepsImplementation(Prepared(w.workflow, c.args), c.args.event, EnvOf(w, c));
    } else if c.Updates? && Accepted(w, c) {
      UpdatedKeepsSlots(w.workflow, c.update);
    }
  }
}
