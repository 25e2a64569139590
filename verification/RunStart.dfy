/** Starting a run: reserve in the Task, claim the idempotency key, spawn, store
    the process record, register. Several runtimes do this on one task; any of
    them may crash at any point, and every store operation may fail. */
module RunStart {
  import opened Base

  datatype TaskStatus = TaskActive | TaskCompleted | TaskCancelled

  /** How far one start has come; `Aborting` is the registration-failure path. */
  datatype Stage = Reserved | Claimed | Spawned | Persisted | Aborting(persisted: bool)

  datatype Call = Call(owner: string, key: Option<string>, stage: Stage)

  datatype Child = Child(live: bool, key: Option<string>)

  datatype Snapshot = Snapshot(owner: string, active: bool)

  /** `pending` maps a reserved process to the runtime that reserved it; `pruned`
      holds the keys whose operation record has ever been deleted. */
  datatype World = World(
    status: TaskStatus,
    pending: map<string, string>,
    registered: set<string>,
    snapshots: map<string, Snapshot>,
    children: map<string, Child>,
    calls: map<string, Call>,
    ops: map<string, string>,
    pruned: set<string>,
    running: set<string>,
    leased: set<string>)

  /** The finalizer of a failed registration; it runs only once the child is known to have ended. */
  datatype AbortEvent = SaveEnded | RegisterEnded | ReleaseEnded | RepairFails

  datatype CallEvent =
    | ClaimKey
    | GiveUp(released: bool)
    | SpawnChild
    | Persist
    | Register
    | RegistrationFails
    | ByAbort(a: AbortEvent)

  datatype Event =
    | StartRuntime(r: string)
    | CrashRuntime(r: string)
    | ReleaseLease(r: string)
    | Reserve(p: string, r: string, key: Option<string>)
    | ByCall(p: string, c: CallEvent)
    | ChildEnds(p: string)
    | Recover(p: string, observer: string)
    | FinishTask
    | CancelTask
    | PruneOperation(opKey: string)

  ghost predicate Unused(w: World, p: string) {
    && p !in w.pending && p !in w.registered && p !in w.snapshots && p !in w.children && p !in w.calls
    && p !in w.ops.Values
  }

  predicate HasEnded(w: World, p: string) {
    p in w.children && !w.children[p].live
  }

  /** What a runtime concludes about another: no lease, or no such process. */
  predicate SeesDead(w: World, observer: string, owner: string) {
    owner != observer && (owner !in w.leased || owner !in w.running)
  }

  /** `addProcess` with a reservation: the Task must be active and still hold it. */
  predicate CanRegister(w: World, p: string) {
    w.status == TaskActive && p in w.pending
  }

  ghost predicate AbortEnabled(w: World, p: string, a: AbortEvent)
    requires p in w.calls
  {
    && w.calls[p].stage.Aborting? && HasEnded(w, p)
    && (a == SaveEnded ==> w.calls[p].stage.persisted && p in w.snapshots)
    && (a == RegisterEnded ==> w.calls[p].stage.persisted && CanRegister(w, p))
  }

  ghost predicate CallEnabled(w: World, p: string, c: CallEvent)
    requires p in w.calls
  {
    var stage := w.calls[p].stage;
    match c
    case ClaimKey => stage == Reserved
    case GiveUp(_) => stage == Reserved || stage == Claimed
    case SpawnChild => stage == Claimed
    case Persist => stage == Spawned
    case Register => stage == Persisted
    case RegistrationFails => stage == Spawned || stage == Persisted
    case ByAbort(a) => AbortEnabled(w, p, a)
  }

  ghost predicate Enabled(w: World, e: Event) {
    match e
    case StartRuntime(r) => r !in w.running
    case CrashRuntime(r) => r in w.running
    case ReleaseLease(r) => r in w.running
    case Reserve(p, r, _) => Unused(w, p) && r in w.running && w.status == TaskActive
    case ByCall(p, c) => p in w.calls && CallEnabled(w, p, c)
    case ChildEnds(p) => p in w.children
    case Recover(p, observer) =>
      observer in w.running && p in w.snapshots && CanRegister(w, p) && SeesDead(w, observer, w.pending[p])
    case FinishTask => w.status == TaskActive && w.pending == map[]
    case CancelTask => w.status == TaskActive && w.pending == map[]
    case PruneOperation(key) => key in w.ops
  }

  function Registered(w: World, p: string): World {
    w.(pending := w.pending - {p}, registered := w.registered + {p})
  }

  function CallDone(w: World, p: string): World {
    w.(calls := w.calls - {p})
  }

  function ToStage(w: World, p: string, stage: Stage): World
    requires p in w.calls
  {
    w.(calls := w.calls[p := w.calls[p].(stage := stage)])
  }

  function AfterClaim(w: World, p: string): World
    requires p in w.calls
  {
    var key := w.calls[p].key;
    if key.None? then ToStage(w, p, Claimed)
    else if key.value in w.ops then CallDone(w, p).(pending := w.pending - {p})
    else ToStage(w, p, Claimed).(ops := w.ops[key.value := p])
  }

  ghost function AfterAbort(w: World, p: string, a: AbortEvent): World
    requires p in w.calls && AbortEnabled(w, p, a)
  {
    match a
    case SaveEnded => w.(snapshots := w.snapshots[p := w.snapshots[p].(active := false)])
    case RegisterEnded => CallDone(Registered(w, p), p)
    case ReleaseEnded => CallDone(w, p).(pending := w.pending - {p})
    case RepairFails => CallDone(w, p)
  }

  ghost function AfterCall(w: World, p: string, c: CallEvent): World
    requires p in w.calls && CallEnabled(w, p, c)
  {
    match c
    case ClaimKey => AfterClaim(w, p)
    case GiveUp(released) =>
      if released then CallDone(w, p).(pending := w.pending - {p}) else CallDone(w, p)
    case SpawnChild => ToStage(w, p, Spawned).(children := w.children[p := Child(true, w.calls[p].key)])
    case Persist => ToStage(w, p, Persisted).(snapshots := w.snapshots[p := Snapshot(w.calls[p].owner, true)])
    case Register => if CanRegister(w, p) then CallDone(Registered(w, p), p) else ToStage(w, p, Aborting(true))
    case RegistrationFails => ToStage(w, p, Aborting(w.calls[p].stage == Persisted))
    case ByAbort(a) => AfterAbort(w, p, a)
  }

  ghost function Apply(w: World, e: Event): World
    requires Enabled(w, e)
  {
    match e
    case StartRuntime(r) => w.(running := w.running + {r}, leased := w.leased + {r})
    case CrashRuntime(r) =>
      w.(running := w.running - {r}, calls := map p | p in w.calls && w.calls[p].owner != r :: w.calls[p])
    case ReleaseLease(r) => w.(leased := w.leased - {r})
    case Reserve(p, r, key) =>
      w.(pending := w.pending[p := r], calls := w.calls[p := Call(r, key, Reserved)])
    case ByCall(p, c) => AfterCall(w, p, c)
    case ChildEnds(p) => w.(children := w.children[p := w.children[p].(live := false)])
    case Recover(p, _) => Registered(w, p).(snapshots := w.snapshots[p := w.snapshots[p].(active := false)])
    case FinishTask => w.(status := TaskCompleted)
    case CancelTask => w.(status := TaskCancelled)
    case PruneOperation(key) => w.(ops := w.ops - {key}, pruned := w.pruned + {key})
  }

  ghost predicate Init(w: World) {
    && w.status == TaskActive && w.pending == map[] && w.registered == {} && w.snapshots == map[]
    && w.children == map[] && w.calls == map[] && w.ops == map[] && w.pruned == {}
  }

  ghost predicate StepsTo(w: World, e: Event, w': World) {
    Enabled(w, e) && w' == Apply(w, e)
  }

  ghost predicate IsRun(ws: seq<World>, es: seq<Event>) {
    && |ws| == |es| + 1 && Init(ws[0])
    && forall k {:trigger es[k]} | 0 <= k < |es| :: StepsTo(ws[k], es[k], ws[k + 1])
  }

  /** The child is known to be gone, or the Task accounts for it. */
  ghost predicate Accounted(w: World, p: string)
    requires p in w.children
  {
    !w.children[p].live || p in w.registered || p in w.pending
  }

  ghost predicate KeyHeld(w: World, p: string, key: Option<string>) {
    key.None? || key.value in w.pruned || (key.value in w.ops && w.ops[key.value] == p)
  }

  ghost predicate CallOk(w: World, p: string)
    requires p in w.calls
  {
    var c := w.calls[p];
    match c.stage
    case Reserved => p in w.pending && p !in w.children && p !in w.snapshots && p !in w.registered
    case Claimed =>
      && p in w.pending && p !in w.children && p !in w.snapshots && p !in w.registered
      && KeyHeld(w, p, c.key)
    case Spawned => p in w.children && p !in w.snapshots
    case Persisted => p in w.children && p in w.snapshots
    case Aborting(_) => p in w.children
  }

  ghost predicate Safe(w: World) {
    && (forall p | p in w.children :: Accounted(w, p) && KeyHeld(w, p, w.children[p].key))
    && (forall p | p in w.calls :: CallOk(w, p))
    && (w.status != TaskActive ==> w.pending == map[])
  }

  /** What one event keeps, seen from the process `p` it is about. */
  ghost predicate Kept(w: World, w': World) {
    && Safe(w')
    && (w.status != TaskActive ==> w'.status == w.status && w'.children.Keys == w.children.Keys)
    && w.registered <= w'.registered
  }

  /** An event that touches the entries of `p` only. */
  ghost predicate Others(w: World, w': World, p: string) {
    && (forall q | q != p ::
          (q in w'.children <==> q in w.children) && (q in w.children ==> w'.children[q] == w.children[q]))
    && (forall q | q != p :: (q in w'.calls <==> q in w.calls) && (q in w.calls ==> w'.calls[q] == w.calls[q]))
    && (forall q | q != p :: (q in w'.pending <==> q in w.pending) && (q in w'.snapshots <==> q in w.snapshots))
    && (forall q | q != p :: q in w'.registered <==> q in w.registered)
    && (forall key | key in w.ops :: key in w'.ops && w'.ops[key] == w.ops[key])
    && w'.pruned == w.pruned && w'.status == w.status
  }

  lemma {:induction false} OthersSafe(w: World, w': World, p: string)
    requires Safe(w) && Others(w, w', p)
    requires p in w'.children ==> Accounted(w', p) && KeyHeld(w', p, w'.children[p].key)
    requires p in w'.calls ==> CallOk(w', p)
    requires w'.status != TaskActive ==> p !in w'.pending
    ensures Safe(w')
  {
  }

  lemma {:induction false} ChildFacts(w: World, p: string)
    requires Safe(w)
    ensures p in w.children ==> Accounted(w, p) && KeyHeld(w, p, w.children[p].key)
  {
  }

  lemma {:induction false} AbortKeeps(w: World, p: string, a: AbortEvent)
    requires Safe(w) && p in w.calls && AbortEnabled(w, p, a)
    ensures Kept(w, AfterAbort(w, p, a))
  {
  }

  lemma {:induction false} ClaimKeeps(w: World, p: string)
    requires Safe(w) && p in w.calls && w.calls[p].stage == Reserved
    ensures Kept(w, AfterClaim(w, p))
  {
    assert CallOk(w, p);
    OthersSafe(w, AfterClaim(w, p), p);
  }

  lemma {:induction false} CallKeeps(w: World, p: string, c: CallEvent)
    requires Safe(w) && p in w.calls && CallEnabled(w, p, c)
    ensures Kept(w, AfterCall(w, p, c))
  {
    match c {
      case ClaimKey => ClaimKeeps(w, p);
      case ByAbort(a) => AbortKeeps(w, p, a);
      case _ =>
        assert CallOk(w, p);
        ChildFacts(w, p);
        OthersSafe(w, AfterCall(w, p, c), p);
    }
  }

  lemma {:induction false} CrashKeeps(w: World, r: string)
    requires Safe(w) && Enabled(w, CrashRuntime(r))
    ensures Kept(w, Apply(w, CrashRuntime(r)))
  {
  }

  lemma {:induction false} PruneKeeps(w: World, key: string)
    requires Safe(w) && Enabled(w, PruneOperation(key))
    ensures Kept(w, Apply(w, PruneOperation(key)))
  {
  }

  lemma {:induction false} TaskKeeps(w: World, e: Event)
    requires Safe(w) && Enabled(w, e)
    requires e.StartRuntime? || e.ReleaseLease? || e.FinishTask? || e.CancelTask?
    ensures Kept(w, Apply(w, e))
  {
  }

  lemma {:induction false} ProcessEventKeeps(w: World, e: Event)
    requires Safe(w) && Enabled(w, e) && (e.Reserve? || e.ChildEnds? || e.Recover?)
    ensures Kept(w, Apply(w, e))
  {
    ChildFacts(w, e.p);
    assert e.p in w.calls ==> CallOk(w, e.p);
    OthersSafe(w, Apply(w, e), e.p);
  }

  lemma {:induction false} StepKeepsSafe(w: World, e: Event)
    requires Safe(w) && Enabled(w, e)
    ensures Kept(w, Apply(w, e))
  {
    match e {
      case CrashRuntime(r) => CrashKeeps(w, r);
      case PruneOperation(key) => PruneKeeps(w, key);
      case ByCall(p, c) => CallKeeps(w, p, c);
      case Reserve(_, _, _) => ProcessEventKeeps(w, e);
      case ChildEnds(_) => ProcessEventKeeps(w, e);
      case Recover(_, _) => ProcessEventKeeps(w, e);
      case _ => TaskKeeps(w, e);
    }
  }

  lemma {:induction false} RunSafe(ws: seq<World>, es: seq<Event>, k: nat)
    requires IsRun(ws, es) && k < |ws|
    ensures Safe(ws[k])
  {
    if k > 0 {
      RunSafe(ws, es, k - 1);
      assert StepsTo(ws[k - 1], es[k - 1], ws[k]);
      StepKeepsSafe(ws[k - 1], es[k - 1]);
    }
  }

  /** Every child ever spawned has ended, or is registered, or is covered by a reservation. */
  lemma {:induction false} NoLostChild(ws: seq<World>, es: seq<Event>, k: nat, p: string)
    requires IsRun(ws, es) && k < |ws| && p in ws[k].children
    ensures !ws[k].children[p].live || p in ws[k].registered || p in ws[k].pending
  {
    RunSafe(ws, es, k);
    assert Accounted(ws[k], p);
  }

  /** Once the Task is finished or cancelled it stays so, no child is spawned any more,
      and every child that still lives is registered. */
  lemma {:induction false} FinalTaskKnowsItsChildren(ws: seq<World>, es: seq<Event>, j: nat, k: nat)
    requires IsRun(ws, es) && j <= k < |ws| && ws[j].status != TaskActive
    ensures ws[k].status == ws[j].status && ws[k].pending == map[]
    ensures ws[k].children.Keys == ws[j].children.Keys
    ensures forall p | p in ws[k].children && ws[k].children[p].live :: p in ws[k].registered
    decreases k - j
  {
    RunSafe(ws, es, k);
    if j < k {
      FinalTaskKnowsItsChildren(ws, es, j, k - 1);
      RunSafe(ws, es, k - 1);
      assert StepsTo(ws[k - 1], es[k - 1], ws[k]);
      StepKeepsSafe(ws[k - 1], es[k - 1]);
    }
    forall p | p in ws[k].children && ws[k].children[p].live ensures p in ws[k].registered {
      assert Accounted(ws[k], p);
    }
  }

  /** Two children started under one key are one child, as long as the key's record was never deleted. */
  lemma {:induction false} OneChildPerKey(ws: seq<World>, es: seq<Event>, k: nat, p: string, q: string)
    requires IsRun(ws, es) && k < |ws| && p in ws[k].children && q in ws[k].children
    requires ws[k].children[p].key.Some? && ws[k].children[p].key == ws[k].children[q].key
    requires ws[k].children[p].key.value !in ws[k].pruned
    ensures p == q
  {
    RunSafe(ws, es, k);
    assert KeyHeld(ws[k], p, ws[k].children[p].key) && KeyHeld(ws[k], q, ws[k].children[q].key);
  }

  // ----- What each event changes, and what changes by which event -----

  /** The events by which the reservation of `p` is given up. */
  predicate Releases(w: World, p: string, e: Event) {
    match e
    case ByCall(q, ClaimKey) =>
      q == p && p in w.calls && w.calls[p].key.Some? && w.calls[p].key.value in w.ops
    case ByCall(q, GiveUp(released)) => q == p && released
    case ByCall(q, Register) => q == p && w.status == TaskActive
    case ByCall(q, ByAbort(a)) => q == p && (a == RegisterEnded || a == ReleaseEnded)
    case Recover(q, _) => q == p
    case _ => false
  }

  ghost predicate KeepsReserved(w: World, e: Event, p: string, w': World) {
    && (p !in w.pending ==> (p in w'.pending <==> e.Reserve? && e.p == p && w.status == TaskActive))
    && (p in w.pending ==> (p !in w'.pending <==> Releases(w, p, e)))
    && (p in w'.pending ==> w'.pending[p] == if p in w.pending then w.pending[p] else e.r)
  }

  lemma {:induction false} CallKeepsReserved(w: World, q: string, c: CallEvent, p: string)
    requires Enabled(w, ByCall(q, c))
    ensures KeepsReserved(w, ByCall(q, c), p, AfterCall(w, q, c))
  {
    match c {
      case ByAbort(a) =>
      case _ =>
    }
  }

  /** A process is reserved by `Reserve` only, while the Task is active and for the runtime that asked,
      and stays so until it is released. */
  lemma {:induction false} ReservedExactly(w: World, e: Event, p: string)
    requires Enabled(w, e)
    ensures KeepsReserved(w, e, p, Apply(w, e))
  {
    match e {
      case ByCall(q, c) => CallKeepsReserved(w, q, c, p);
      case _ =>
    }
  }

  ghost predicate Registers(w: World, e: Event, p: string) {
    && w.status == TaskActive && p in w.pending
    && (e == ByCall(p, Register) || e == ByCall(p, ByAbort(RegisterEnded)) || (e.Recover? && e.p == p))
  }

  lemma {:induction false} CallRegisters(w: World, q: string, c: CallEvent, p: string)
    requires Enabled(w, ByCall(q, c))
    ensures p in AfterCall(w, q, c).registered <==> p in w.registered || Registers(w, ByCall(q, c), p)
  {
  }

  /** A process is registered only while the Task is active and has it reserved: by its own call,
      or for it once it is known to have ended. */
  lemma {:induction false} RegisteredExactly(w: World, e: Event, p: string)
    requires Enabled(w, e)
    ensures p in Apply(w, e).registered <==> p in w.registered || Registers(w, e, p)
  {
    match e {
      case ByCall(q, c) => CallRegisters(w, q, c, p);
      case _ =>
    }
  }

  /** A child comes from its own call and only ever ends. */
  lemma {:induction false} ChildExactly(w: World, e: Event, p: string)
    requires Safe(w) && Enabled(w, e)
    ensures
      var w' := Apply(w, e);
      if p in w.children then
        p in w'.children && w'.children[p].key == w.children[p].key
        && (w'.children[p].live <==> w.children[p].live && e != ChildEnds(p))
      else if e == ByCall(p, SpawnChild) then p in w'.children && w'.children[p] == Child(true, w.calls[p].key)
      else p !in w'.children
  {
    assert p in w.calls ==> CallOk(w, p);
  }

  ghost predicate Stores(w: World, e: Event, p: string, w': World) {
    if e == ByCall(p, Persist) then
      p in w.calls && p in w'.snapshots && w'.snapshots[p] == Snapshot(w.calls[p].owner, true)
    else if p !in w.snapshots then p !in w'.snapshots
    else
      && p in w'.snapshots && w'.snapshots[p].owner == w.snapshots[p].owner
      && (w'.snapshots[p].active <==>
            w.snapshots[p].active && e != ByCall(p, ByAbort(SaveEnded)) && !(e.Recover? && e.p == p))
  }

  lemma {:induction false} CallStores(w: World, q: string, c: CallEvent, p: string)
    requires Enabled(w, ByCall(q, c))
    ensures Stores(w, ByCall(q, c), p, AfterCall(w, q, c))
  {
  }

  /** A record is stored as active by its own call; it becomes inactive when the call knows that its
      child has ended, or when another runtime finds the owner gone. */
  lemma {:induction false} StoredExactly(w: World, e: Event, p: string)
    requires Enabled(w, e)
    ensures Stores(w, e, p, Apply(w, e))
  {
    match e {
      case ByCall(q, c) => CallStores(w, q, c, p);
      case _ =>
    }
  }

  /** A key is taken by the first call that claims it and given up only by retention. */
  lemma {:induction false} KeyedExactly(w: World, e: Event, key: string)
    requires Enabled(w, e)
    ensures
      var w' := Apply(w, e);
      && (key in w.ops ==>
            && (key !in w'.ops <==> e == PruneOperation(key))
            && (key in w'.ops ==> w'.ops[key] == w.ops[key]))
      && (key !in w.ops ==>
            (key in w'.ops <==> e.ByCall? && e.c == ClaimKey && w.calls[e.p].key == Some(key))
            && (key in w'.ops ==> w'.ops[key] == e.p))
      && (key in w'.pruned <==> key in w.pruned || e == PruneOperation(key))
  {
  }

  /** How far the call of `p` has come after its own next step, if it goes on. */
  ghost predicate CallGoesOn(w: World, p: string, c: CallEvent, stage: Stage)
    requires p in w.calls
  {
    match c
    case ClaimKey => stage == Claimed && (w.calls[p].key.Some? ==> w.calls[p].key.value !in w.ops)
    case SpawnChild => stage == Spawned
    case Persist => stage == Persisted
    case Register => stage == Aborting(true) && (w.status != TaskActive || p !in w.pending)
    case RegistrationFails => stage == Aborting(w.calls[p].stage == Persisted)
    case ByAbort(SaveEnded) => stage == w.calls[p].stage
    case GiveUp(_) => false
    case ByAbort(_) => false
  }

  ghost predicate Proceeds(w: World, p: string, c: CallEvent, w': World) {
    && p in w.calls
    && if p in w'.calls
       then CallGoesOn(w, p, c, w'.calls[p].stage) && w'.calls[p] == w.calls[p].(stage := w'.calls[p].stage)
       else forall stage :: !CallGoesOn(w, p, c, stage)
  }

  lemma {:induction false} CallProceeds(w: World, p: string, c: CallEvent)
    requires Enabled(w, ByCall(p, c))
    ensures Proceeds(w, p, c, AfterCall(w, p, c))
    ensures forall q | q != p && q in w.calls ::
      q in AfterCall(w, p, c).calls && AfterCall(w, p, c).calls[q] == w.calls[q]
    ensures AfterCall(w, p, c).calls.Keys <= w.calls.Keys
  {
    match c {
      case ByAbort(a) =>
      case _ =>
    }
  }

  /** A call begins with its reservation, moves by its own steps, and ends with them or with its runtime. */
  lemma {:induction false} CalledExactly(w: World, e: Event, p: string)
    requires Enabled(w, e)
    ensures
      var w' := Apply(w, e);
      if e.Reserve? && e.p == p then p in w'.calls && w'.calls[p] == Call(e.r, e.key, Reserved)
      else if p !in w.calls then p !in w'.calls
      else if e.ByCall? && e.p == p then Proceeds(w, p, e.c, w')
      else
        && (p in w'.calls <==> !e.CrashRuntime? || w.calls[p].owner != e.r)
        && (p in w'.calls ==> w'.calls[p] == w.calls[p])
  {
    match e {
      case ByCall(q, c) => CallProceeds(w, q, c);
      case _ =>
    }
  }

  /** The Task is finished or cancelled only while it is active with nothing reserved. */
  lemma {:induction false} FinalisedExactly(w: World, e: Event)
    requires Enabled(w, e)
    ensures Apply(w, e).status ==
      match e case FinishTask => TaskCompleted case CancelTask => TaskCancelled case _ => w.status
    ensures e == FinishTask || e == CancelTask ==> w.status == TaskActive && w.pending == map[]
  {
    match e {
      case ByCall(q, c) => CallKeepsRest(w, q, c);
      case _ =>
    }
  }

  lemma {:induction false} CallKeepsRest(w: World, q: string, c: CallEvent)
    requires Enabled(w, ByCall(q, c))
    ensures
      var w' := AfterCall(w, q, c);
      w'.status == w.status && w'.running == w.running && w'.leased == w.leased && w'.pruned == w.pruned
  {
    match c {
      case ByAbort(a) =>
      case _ =>
    }
  }

  /** Runtimes come with a lease and go, and leases are given up. */
  lemma {:induction false} RunningExactly(w: World, e: Event, r: string)
    requires Enabled(w, e)
    ensures r in Apply(w, e).running <==> e == StartRuntime(r) || (r in w.running && e != CrashRuntime(r))
    ensures r in Apply(w, e).leased <==> e == StartRuntime(r) || (r in w.leased && e != ReleaseLease(r))
  {
    match e {
      case ByCall(q, c) => CallKeepsRest(w, q, c);
      case _ =>
    }
  }

  /** Every call is made by a running runtime, in whose name its process is reserved. */
  ghost predicate CallsAreOwned(w: World) {
    forall p | p in w.calls ::
      w.calls[p].owner in w.running && (p in w.pending ==> w.pending[p] == w.calls[p].owner)
  }

  lemma {:induction false} StepKeepsOwners(w: World, e: Event)
    requires CallsAreOwned(w) && Enabled(w, e)
    ensures CallsAreOwned(Apply(w, e))
  {
    var w' := Apply(w, e);
    forall p | p in w'.calls
      ensures w'.calls[p].owner in w'.running && (p in w'.pending ==> w'.pending[p] == w'.calls[p].owner)
    {
      CalledExactly(w, e, p);
      ReservedExactly(w, e, p);
      if p in w.calls {
        RunningExactly(w, e, w.calls[p].owner);
      }
    }
  }

  lemma {:induction false} RunOwns(ws: seq<World>, es: seq<Event>, k: nat)
    requires IsRun(ws, es) && k < |ws|
    ensures CallsAreOwned(ws[k])
  {
    if k > 0 {
      RunOwns(ws, es, k - 1);
      assert StepsTo(ws[k - 1], es[k - 1], ws[k]);
      StepKeepsOwners(ws[k - 1], es[k - 1]);
    }
  }

  /** What a running runtime with a lease has reserved is given up only by its own call for it, and
      a record is marked as ended by another runtime only when the reservation's owner is gone. */
  lemma {:induction false} LivingKeepTheirs(ws: seq<World>, es: seq<Event>, k: nat, p: string)
    requires IsRun(ws, es) && k < |es| && p in ws[k].pending
    requires ws[k].pending[p] in ws[k].running && ws[k].pending[p] in ws[k].leased
    ensures p !in ws[k + 1].pending ==>
      es[k].ByCall? && es[k].p == p && p in ws[k].calls && ws[k].calls[p].owner == ws[k].pending[p]
    ensures p in ws[k].snapshots && ws[k].snapshots[p].active ==>
      && p in ws[k + 1].snapshots
      && (!ws[k + 1].snapshots[p].active ==>
            es[k] == ByCall(p, ByAbort(SaveEnded)) && p in ws[k].children && !ws[k].children[p].live)
  {
    assert StepsTo(ws[k], es[k], ws[k + 1]);
    RunOwns(ws, es, k);
    ReservedExactly(ws[k], es[k], p);
    StoredExactly(ws[k], es[k], p);
  }

  /** The steps a call can make next: on to the next stage, or out of the start. */
  ghost function Choices(stage: Stage, ended: bool, mayRegister: bool): set<CallEvent> {
    match stage
    case Reserved => {ClaimKey, GiveUp(true), GiveUp(false)}
    case Claimed => {SpawnChild, GiveUp(true), GiveUp(false)}
    case Spawned => {Persist, RegistrationFails}
    case Persisted => {Register, RegistrationFails}
    case Aborting(persisted) =>
      if !ended then {}
      else
        {ByAbort(ReleaseEnded), ByAbort(RepairFails)}
        + (if persisted then {ByAbort(SaveEnded)} else {})
        + (if persisted && mayRegister then {ByAbort(RegisterEnded)} else {})
  }

  /** An abort begun after the record was stored finds it stored. */
  ghost predicate AbortsAsStored(w: World) {
    forall p | p in w.calls && w.calls[p].stage == Aborting(true) :: p in w.snapshots
  }

  lemma {:induction false} ChoicesExactly(w: World, p: string, c: CallEvent)
    requires p in w.calls && AbortsAsStored(w)
    ensures
      CallEnabled(w, p, c) <==>
      c in Choices(w.calls[p].stage, p in w.children && !w.children[p].live, p in w.pending && w.status == TaskActive)
  {
  }

  /** What is registered has had a child, whose record is stored. */
  ghost predicate RegisteredStored(w: World) {
    AbortsAsStored(w) && forall p | p in w.registered :: p in w.snapshots
  }

  lemma {:induction false} StepKeepsStored(w: World, e: Event)
    requires Safe(w) && RegisteredStored(w) && Enabled(w, e)
    ensures RegisteredStored(Apply(w, e))
  {
    var w' := Apply(w, e);
    forall p | p in w'.registered ensures p in w'.snapshots {
      RegisteredExactly(w, e, p);
      StoredExactly(w, e, p);
      assert p in w.calls ==> CallOk(w, p);
    }
    forall p | p in w'.calls && w'.calls[p].stage == Aborting(true) ensures p in w'.snapshots {
      CalledExactly(w, e, p);
      StoredExactly(w, e, p);
      assert p in w.calls ==> CallOk(w, p);
    }
  }

  lemma {:induction false} RunStored(ws: seq<World>, es: seq<Event>, k: nat)
    requires IsRun(ws, es) && k < |ws|
    ensures RegisteredStored(ws[k])
  {
    if k > 0 {
      RunStored(ws, es, k - 1);
      RunSafe(ws, es, k - 1);
      assert StepsTo(ws[k - 1], es[k - 1], ws[k]);
      StepKeepsStored(ws[k - 1], es[k - 1]);
    }
  }

  /** In every run the record of a registered process is stored, and a call can make just these steps. */
  lemma {:induction false} StagesInOrder(ws: seq<World>, es: seq<Event>, k: nat, p: string, c: CallEvent)
    requires IsRun(ws, es) && k < |ws|
    ensures p in ws[k].registered ==> p in ws[k].snapshots
    ensures p in ws[k].calls ==>
      (Enabled(ws[k], ByCall(p, c)) <==>
         c in Choices(ws[k].calls[p].stage, p in ws[k].children && !ws[k].children[p].live,
                      p in ws[k].pending && ws[k].status == TaskActive))
  {
    RunStored(ws, es, k);
    if p in ws[k].calls {
      ChoicesExactly(ws[k], p, c);
    }
  }

  /** A start that was given up, or whose runtime has crashed, before the reservation was. */
  ghost predicate Abandoned(w: World, p: string) {
    p in w.pending && p !in w.calls
  }

  /** While the Task is active and the record is stored, any other runtime may recover an abandoned start
      exactly when its owner has no lease or does not run; the run is then registered as ended. */
  lemma {:induction false} StoredStartIsRecovered(w: World, p: string, observer: string)
    requires Abandoned(w, p) && p in w.snapshots && w.status == TaskActive && observer in w.running
    ensures
      Enabled(w, Recover(p, observer)) <==>
      observer != w.pending[p] && (w.pending[p] !in w.leased || w.pending[p] !in w.running)
    ensures Enabled(w, Recover(p, observer)) ==>
      var w' := Apply(w, Recover(p, observer));
      && p !in w'.pending && p in w'.registered && p in w'.snapshots && !w'.snapshots[p].active
      && w'.pending.Keys == w.pending.Keys - {p}
  {
  }

  lemma {:induction false} AbandonedStays(w: World, e: Event, p: string)
    requires Abandoned(w, p) && p !in w.snapshots && Enabled(w, e) && (w.status != TaskActive ==> w.pending == map[])
    ensures Abandoned(Apply(w, e), p) && p !in Apply(w, e).snapshots && Apply(w, e).status == TaskActive
  {
    ReservedExactly(w, e, p);
    CalledExactly(w, e, p);
    StoredExactly(w, e, p);
    FinalisedExactly(w, e);
  }

  /** A start abandoned before its record was stored keeps its reservation for good: whether a child ran
      is not known, and the Task is never finished or cancelled. */
  lemma {:induction false} UnstoredStartBlocks(ws: seq<World>, es: seq<Event>, j: nat, k: nat, p: string)
    requires IsRun(ws, es) && j <= k < |ws| && Abandoned(ws[j], p) && p !in ws[j].snapshots
    ensures Abandoned(ws[k], p) && p !in ws[k].snapshots && ws[k].status == TaskActive
    decreases k - j
  {
    RunSafe(ws, es, k);
    if j < k {
      UnstoredStartBlocks(ws, es, j, k - 1, p);
      RunSafe(ws, es, k - 1);
      assert StepsTo(ws[k - 1], es[k - 1], ws[k]);
      AbandonedStays(ws[k - 1], es[k - 1], p);
    }
  }
}
