/** Several runtimes over one store of process records: who may signal a run, and when a run
    is given up, over every interleaving of starts, crashes, reads and cancellations. */
module OwnershipRuns {
  import opened Base
  import opened Ownership

  /** One incarnation of a runtime; identifiers may be used again after a crash, `life` is not. */
  datatype Runtime = Runtime(life: nat, pid: int, records: map<string, Record>)

  datatype Signal = Signal(life: nat, process: string)

  /** `aborting` are the processes whose start failed after their child was spawned, each with
      whether its record had been stored by then. */
  datatype World = World(
    runtimes: map<string, Runtime>,
    leases: map<string, Lease>,
    livePids: set<int>,
    snapshots: map<string, Snapshot>,
    spawner: map<string, nat>,
    aborting: map<string, bool>,
    lives: nat,
    signals: seq<Signal>)

  datatype Event =
    | StartRuntime(id: string, pid: int, now: int)
    | CrashRuntime(id: string)
    | Heartbeat(id: string, now: int)
    | ReleaseLease(id: string)
    | OtherPid(pid: int, alive: bool)
    | Spawn(id: string, p: string, taskId: string)
    | Outputs(id: string, p: string)
    | Ends(id: string, p: string, failed: bool)
    | Read(id: string, p: string, now: int, staleMs: int)
    | CancelRun(id: string, p: string, taskId: string, now: int, staleMs: int)
    | ShutdownTerm(id: string, p: string)
    | ShutdownKill(id: string, p: string)
    | SpawnAborted(id: string, p: string, taskId: string, stored: bool)
    | AbortPersists(id: string, p: string)
    | AbortSignals(id: string, p: string)
    | AbortEnds(id: string, p: string, stored: bool)

  predicate PidTaken(w: World, pid: int) {
    exists id | id in w.runtimes :: w.runtimes[id].pid == pid
  }

  predicate Enabled(w: World, e: Event) {
    match e
    case StartRuntime(id, pid, _) => id !in w.runtimes && pid > 0 && !PidTaken(w, pid)
    case CrashRuntime(id) => id in w.runtimes
    case Heartbeat(id, _) => id in w.runtimes
    case ReleaseLease(id) => id in w.runtimes
    case OtherPid(pid, _) => !PidTaken(w, pid)
    case Spawn(id, p, _) => MaySpawn(w, id, p)
    case Outputs(id, p) => OwnChild(w, id, p) && p !in w.aborting
    case Ends(id, p, _) => OwnChild(w, id, p) && p !in w.aborting
    case Read(id, _, _, _) => id in w.runtimes
    case CancelRun(id, _, _, _, _) => id in w.runtimes
    case ShutdownTerm(id, p) => OwnChild(w, id, p)
    case ShutdownKill(id, p) => OwnChild(w, id, p)
    case SpawnAborted(id, p, _, _) => MaySpawn(w, id, p) && p !in w.aborting
    case AbortPersists(id, p) => OwnChild(w, id, p) && p in w.aborting && w.aborting[p]
    case AbortSignals(id, p) => OwnChild(w, id, p) && p in w.aborting
    case AbortEnds(id, p, _) => OwnChild(w, id, p) && p in w.aborting
  }

  /** Process identifiers are never used twice. */
  predicate MaySpawn(w: World, id: string, p: string) {
    id in w.runtimes && id != "" && p !in w.snapshots && p !in w.runtimes[id].records && p !in w.spawner
  }

  predicate OwnChild(w: World, id: string, p: string) {
    id in w.runtimes && p in w.runtimes[id].records && w.runtimes[id].records[p].child
  }

  function ObserverOf(w: World, id: string, now: int, staleMs: int): Observer {
    Observer(id, w.leases, w.livePids, now, staleMs)
  }

  function WithRecord(w: World, id: string, p: string, r: Record): World
    requires id in w.runtimes
  {
    var t := w.runtimes[id];
    w.(runtimes := w.runtimes[id := t.(records := t.records[p := r])])
  }

  function Stored(w: World, id: string, p: string, r: Record): World
    requires id in w.runtimes
  {
    WithRecord(w, id, p, r).(snapshots := w.snapshots[p := Durable(r)])
  }

  /** Reading a process: from the cache, or by restoring it from the store. */
  function AfterRead(w: World, id: string, p: string, now: int, staleMs: int): World
    requires id in w.runtimes
  {
    var t, o := w.runtimes[id], ObserverOf(w, id, now, staleMs);
    w.(runtimes := w.runtimes[id := t.(records := RecordsRead(t.records, w.snapshots, o, p))],
       snapshots := SnapshotsRead(t.records, w.snapshots, o, p))
  }

  /** Cancelling what was read. */
  function AfterCancel(w: World, id: string, p: string, taskId: string): World
    requires id in w.runtimes
  {
    var t := w.runtimes[id];
    if Cancels(t.records, p, taskId) then Signalled(Stored(w, id, p, CancellingRecord(t.records[p])), id, p) else w
  }

  /** The process group of `p` is signalled by the runtime `id`. */
  function Signalled(w: World, id: string, p: string): World
    requires id in w.runtimes
  {
    w.(signals := w.signals + [Signal(w.runtimes[id].life, p)])
  }

  /** Shutting down: a running child is marked as cancelling first. */
  function AfterTerm(w: World, id: string, p: string): World
    requires OwnChild(w, id, p)
  {
    var r := w.runtimes[id].records[p];
    Signalled(if r.status == Running then Stored(w, id, p, CancellingRecord(r)) else w, id, p)
  }

  /** The child is there, but its record could not be stored, or the task does not take the run. */
  function AfterAbortedSpawn(w: World, id: string, p: string, taskId: string, stored: bool): World
    requires id in w.runtimes
  {
    WithRecord(w, id, p, Record(taskId, Cancelling, Some(id), true, true, false, false)).(
      snapshots := if stored then w.snapshots[p := Snapshot(taskId, Running, Some(id))] else w.snapshots,
      spawner := w.spawner[p := w.runtimes[id].life],
      aborting := w.aborting[p := stored])
  }

  /** The child of a failed start has ended; its record leaves the cache. */
  function AfterAbort(w: World, id: string, p: string, stored: bool): World
    requires OwnChild(w, id, p) && p in w.aborting
  {
    var t := w.runtimes[id];
    w.(runtimes := w.runtimes[id := t.(records := t.records - {p})],
       snapshots := if stored && w.aborting[p]
                    then w.snapshots[p := Durable(t.records[p].(status := Failed))] else w.snapshots)
  }

  function AfterSpawn(w: World, id: string, p: string, taskId: string): World
    requires id in w.runtimes
  {
    Stored(w, id, p, Record(taskId, Running, Some(id), false, true, false, false)).(
      spawner := w.spawner[p := w.runtimes[id].life])
  }

  function Apply(w: World, e: Event): World
    requires Enabled(w, e)
  {
    match e
    case StartRuntime(id, pid, now) =>
      w.(runtimes := w.runtimes[id := Runtime(w.lives, pid, map[])], lives := w.lives + 1,
         leases := w.leases[id := Lease(pid, Some(now))], livePids := w.livePids + {pid})
    case CrashRuntime(id) => w.(runtimes := w.runtimes - {id}, livePids := w.livePids - {w.runtimes[id].pid})
    case Heartbeat(id, now) => w.(leases := w.leases[id := Lease(w.runtimes[id].pid, Some(now))])
    case ReleaseLease(id) => w.(leases := w.leases - {id})
    case OtherPid(pid, alive) => w.(livePids := if alive then w.livePids + {pid} else w.livePids - {pid})
    case Spawn(id, p, taskId) => AfterSpawn(w, id, p, taskId)
    case Outputs(id, p) => Stored(w, id, p, w.runtimes[id].records[p])
    case Ends(id, p, failed) => Stored(w, id, p, EndedRecord(w.runtimes[id].records[p], failed))
    case Read(id, p, now, staleMs) => AfterRead(w, id, p, now, staleMs)
    case CancelRun(id, p, taskId, now, staleMs) =>
      AfterCancel(AfterRead(w, id, p, now, staleMs), id, p, taskId)
    case ShutdownTerm(id, p) => AfterTerm(w, id, p)
    case ShutdownKill(id, p) => Signalled(w, id, p)
    case SpawnAborted(id, p, taskId, stored) => AfterAbortedSpawn(w, id, p, taskId, stored)
    case AbortPersists(id, p) => Stored(w, id, p, w.runtimes[id].records[p])
    case AbortSignals(id, p) => Signalled(w, id, p)
    case AbortEnds(id, p, stored) => AfterAbort(w, id, p, stored)
  }

  predicate Init(w: World) {
    w.runtimes == map[] && w.leases == map[] && w.snapshots == map[] && w.spawner == map[]
    && w.aborting == map[] && w.signals == []
  }

  ghost predicate StepsTo(w: World, e: Event, w': World) {
    Enabled(w, e) && w' == Apply(w, e)
  }

  ghost predicate IsRun(ws: seq<World>, es: seq<Event>) {
    && |ws| == |es| + 1 && Init(ws[0])
    && forall k {:trigger es[k]} | 0 <= k < |es| :: StepsTo(ws[k], es[k], ws[k + 1])
  }

  // ----- What every run keeps -----

  /** A cached active record is either this incarnation's own child or somebody else's run. */
  ghost predicate RecordOk(w: World, id: string, life: nat, p: string, r: Record) {
    && (IsActive(r.status) ==> r.child != r.remoteOwner)
    && (!IsActive(r.status) ==> !r.child && !r.remoteOwner)
    && (r.child ==> p in w.spawner && w.spawner[p] == life && r.owner == Some(id) && id != "")
    && (r.remoteOwner ==> r.owner != Some(id))
  }

  ghost predicate RuntimeOk(w: World, id: string) {
    id in w.runtimes ==>
      var t := w.runtimes[id];
      && t.pid > 0 && t.pid in w.livePids && t.life < w.lives
      && (id in w.leases ==> w.leases[id].pid == t.pid)
      && (forall p | p in t.records :: RecordOk(w, id, t.life, p, t.records[p]))
  }

  ghost predicate Safe(w: World) {
    && (forall id | id in w.runtimes :: RuntimeOk(w, id))
    && (forall s | s in w.signals :: s.process in w.spawner && w.spawner[s.process] == s.life)
    && (forall a, b | a in w.runtimes && b in w.runtimes && a != b ::
          w.runtimes[a].pid != w.runtimes[b].pid && w.runtimes[a].life != w.runtimes[b].life)
    && (forall id, p | OwnChild(w, id, p) :: HeldOk(w, id, p, w.runtimes[id].records[p]))
    && (forall p | p in w.aborting && w.aborting[p] :: p in w.snapshots)
    && (forall p | p in w.aborting :: p in w.spawner)
  }

  /** The store names the holder of a child; only a failed start may be missing from it. */
  ghost predicate HeldOk(w: World, id: string, p: string, r: Record) {
    if p in w.snapshots then w.snapshots[p].owner == Some(id) else p in w.aborting && r.status != Running
  }

  /** One cached record changes. */
  lemma {:induction false} RecordKeeps(w: World, id: string, p: string, r: Record)
    requires Safe(w) && id in w.runtimes && RecordOk(w, id, w.runtimes[id].life, p, r)
    requires r.child ==> HeldOk(w, id, p, r)
    ensures Safe(WithRecord(w, id, p, r))
  {
    var w' := WithRecord(w, id, p, r);
    assert RuntimeOk(w, id);
    forall a | a in w'.runtimes ensures RuntimeOk(w', a) {
      assert RuntimeOk(w, a);
    }
    forall a, q | OwnChild(w', a, q) ensures HeldOk(w', a, q, w'.runtimes[a].records[q]) {
      assert OwnChild(w, a, q) || (a == id && q == p);
    }
  }

  /** The stored record of a run is replaced by one of the same owner. */
  lemma {:induction false} StoreKeeps(w: World, p: string, s: Snapshot)
    requires Safe(w) && p in w.snapshots && s.owner == w.snapshots[p].owner
    ensures Safe(w.(snapshots := w.snapshots[p := s]))
  {
    var w' := w.(snapshots := w.snapshots[p := s]);
    forall a | a in w'.runtimes ensures RuntimeOk(w', a) {
      assert RuntimeOk(w, a);
    }
    forall a, q | OwnChild(w', a, q) ensures HeldOk(w', a, q, w'.runtimes[a].records[q]) {
      assert OwnChild(w, a, q);
    }
  }

  lemma {:induction false} RestoredOk(w: World, id: string, p: string, now: int, staleMs: int)
    requires p in w.snapshots && id in w.runtimes
    ensures RecordOk(w, id, w.runtimes[id].life, p, Restored(ObserverOf(w, id, now, staleMs), w.snapshots[p]))
    ensures !Restored(ObserverOf(w, id, now, staleMs), w.snapshots[p]).child
    ensures Restored(ObserverOf(w, id, now, staleMs), w.snapshots[p]).owner == w.snapshots[p].owner
  {
  }

  lemma {:induction false} ReadKeeps(w: World, id: string, p: string, now: int, staleMs: int)
    requires Safe(w) && id in w.runtimes
    ensures Safe(AfterRead(w, id, p, now, staleMs))
  {
    var t := w.runtimes[id];
    if MustRestore(t.records, w.snapshots, p) {
      var r := Restored(ObserverOf(w, id, now, staleMs), w.snapshots[p]);
      RestoredOk(w, id, p, now, staleMs);
      RecordKeeps(w, id, p, r);
      StoreKeeps(WithRecord(w, id, p, r), p, Durable(r));
      assert AfterRead(w, id, p, now, staleMs) ==
        if r.status == w.snapshots[p].status then WithRecord(w, id, p, r) else Stored(w, id, p, r);
    } else {
      assert AfterRead(w, id, p, now, staleMs) == w;
    }
  }

  lemma {:induction false} CancelKeeps(w: World, id: string, p: string, taskId: string)
    requires Safe(w) && id in w.runtimes
    ensures Safe(AfterCancel(w, id, p, taskId))
  {
    if Cancels(w.runtimes[id].records, p, taskId) {
      var r := CancellingRecord(w.runtimes[id].records[p]);
      assert RuntimeOk(w, id) && RecordOk(w, id, w.runtimes[id].life, p, w.runtimes[id].records[p]);
      assert OwnChild(w, id, p);
      RecordKeeps(w, id, p, r);
      StoreKeeps(WithRecord(w, id, p, r), p, Durable(r));
      SignalKeeps(Stored(w, id, p, r), id, p);
    }
  }

  lemma {:induction false} SignalKeeps(w: World, id: string, p: string)
    requires Safe(w) && OwnChild(w, id, p)
    ensures Safe(Signalled(w, id, p))
  {
    var w' := Signalled(w, id, p);
    assert RuntimeOk(w, id) && RecordOk(w, id, w.runtimes[id].life, p, w.runtimes[id].records[p]);
    forall a | a in w'.runtimes ensures RuntimeOk(w', a) {
      assert RuntimeOk(w, a);
    }
    forall a, q | OwnChild(w', a, q) ensures HeldOk(w', a, q, w'.runtimes[a].records[q]) {
      assert OwnChild(w, a, q);
    }
  }

  /** The holder of a child stores its record, as it is or ended. */
  lemma {:induction false} HolderKeeps(w: World, id: string, p: string, r: Record)
    requires Safe(w) && OwnChild(w, id, p) && p in w.snapshots
    requires
      || r == w.runtimes[id].records[p] || r == CancellingRecord(w.runtimes[id].records[p])
      || exists failed :: r == EndedRecord(w.runtimes[id].records[p], failed)
    ensures Safe(Stored(w, id, p, r))
  {
    assert RuntimeOk(w, id) && RecordOk(w, id, w.runtimes[id].life, p, w.runtimes[id].records[p]);
    assert HeldOk(w, id, p, w.runtimes[id].records[p]);
    RecordKeeps(w, id, p, r);
    StoreKeeps(WithRecord(w, id, p, r), p, Durable(r));
  }

  lemma {:induction false} TermKeeps(w: World, id: string, p: string)
    requires Safe(w) && OwnChild(w, id, p)
    ensures Safe(AfterTerm(w, id, p))
  {
    var r := w.runtimes[id].records[p];
    assert HeldOk(w, id, p, w.runtimes[id].records[p]);
    if r.status == Running {
      HolderKeeps(w, id, p, CancellingRecord(r));
      SignalKeeps(Stored(w, id, p, CancellingRecord(r)), id, p);
    } else {
      SignalKeeps(w, id, p);
    }
  }

  /** A child has been spawned here, and its record is in the cache, whether stored or not. */
  ghost predicate Adopts(w: World, w': World, id: string, p: string, r: Record) {
    && MaySpawn(w, id, p) && r.child && r.owner == Some(id) && IsActive(r.status) && !r.remoteOwner
    && w'.runtimes == WithRecord(w, id, p, r).runtimes && w'.spawner == w.spawner[p := w.runtimes[id].life]
    && w'.leases == w.leases && w'.livePids == w.livePids && w'.lives == w.lives && w'.signals == w.signals
    && (w'.snapshots == w.snapshots || w'.snapshots == w.snapshots[p := Snapshot(r.taskId, Running, r.owner)])
    && (w'.aborting == w.aborting || w'.aborting == w.aborting[p := p in w'.snapshots])
    && HeldOk(w', id, p, r)
  }

  lemma {:induction false} AdoptKeepsRuntimes(w: World, w': World, id: string, p: string, r: Record, a: string)
    requires Safe(w) && Adopts(w, w', id, p, r) && a in w'.runtimes
    ensures RuntimeOk(w', a)
  {
    assert RuntimeOk(w, a) && RuntimeOk(w, id);
  }

  lemma {:induction false} AdoptKeepsHolders(
    w: World, w': World, id: string, p: string, r: Record, a: string, q: string)
    requires Safe(w) && Adopts(w, w', id, p, r) && OwnChild(w', a, q)
    ensures HeldOk(w', a, q, w'.runtimes[a].records[q])
  {
    assert RuntimeOk(w, a);
    if a != id || q != p {
      assert OwnChild(w, a, q) && HeldOk(w, a, q, w.runtimes[a].records[q]);
      assert RecordOk(w, a, w.runtimes[a].life, q, w.runtimes[a].records[q]);
    }
  }

  lemma {:induction false} AdoptKeeps(w: World, w': World, id: string, p: string, r: Record)
    requires Safe(w) && Adopts(w, w', id, p, r)
    ensures Safe(w')
  {
    forall a | a in w'.runtimes ensures RuntimeOk(w', a) {
      AdoptKeepsRuntimes(w, w', id, p, r, a);
    }
    forall a, q | OwnChild(w', a, q) ensures HeldOk(w', a, q, w'.runtimes[a].records[q]) {
      AdoptKeepsHolders(w, w', id, p, r, a, q);
    }
  }

  lemma {:induction false} AbortEndsKeeps(w: World, id: string, p: string, stored: bool)
    requires Safe(w) && OwnChild(w, id, p) && p in w.aborting
    ensures Safe(AfterAbort(w, id, p, stored))
  {
    var w' := AfterAbort(w, id, p, stored);
    assert RuntimeOk(w, id) && HeldOk(w, id, p, w.runtimes[id].records[p]);
    assert RecordOk(w, id, w.runtimes[id].life, p, w.runtimes[id].records[p]);
    forall a | a in w'.runtimes ensures RuntimeOk(w', a) {
      assert RuntimeOk(w, a);
    }
    forall a, q | OwnChild(w', a, q) ensures HeldOk(w', a, q, w'.runtimes[a].records[q]) {
      assert OwnChild(w, a, q) && HeldOk(w, a, q, w.runtimes[a].records[q]);
    }
  }

  /** A new incarnation has a life and a process id of its own. */
  lemma {:induction false} StartKeeps(w: World, id: string, pid: int, now: int)
    requires Safe(w) && Enabled(w, StartRuntime(id, pid, now))
    ensures Safe(Apply(w, StartRuntime(id, pid, now)))
  {
    var w' := Apply(w, StartRuntime(id, pid, now));
    forall a | a in w'.runtimes ensures RuntimeOk(w', a) && (a != id ==> w.runtimes[a].life < w'.runtimes[id].life) {
      assert a != id ==> RuntimeOk(w, a);
    }
    HoldersStay(w, w');
  }

  /** A runtime, a lease or a process id goes or changes. */
  lemma {:induction false} OutsideKeeps(w: World, e: Event)
    requires Safe(w) && Enabled(w, e) && (e.CrashRuntime? || e.Heartbeat? || e.ReleaseLease? || e.OtherPid?)
    ensures Safe(Apply(w, e))
  {
    var w' := Apply(w, e);
    forall a | a in w'.runtimes ensures RuntimeOk(w', a) {
      assert RuntimeOk(w, a);
      assert e.CrashRuntime? && a != e.id ==> w.runtimes[a].pid != w.runtimes[e.id].pid;
    }
    HoldersStay(w, w');
  }

  lemma {:induction false} HoldersStay(w: World, w': World)
    requires Safe(w) && w'.snapshots == w.snapshots && w'.aborting == w.aborting
    requires forall a, q | OwnChild(w', a, q) :: OwnChild(w, a, q) && w'.runtimes[a].records == w.runtimes[a].records
    ensures forall a, q | OwnChild(w', a, q) :: HeldOk(w', a, q, w'.runtimes[a].records[q])
  {
    forall a, q | OwnChild(w', a, q) ensures HeldOk(w', a, q, w'.runtimes[a].records[q]) {
      assert OwnChild(w, a, q) && HeldOk(w, a, q, w.runtimes[a].records[q]);
    }
  }

  lemma {:induction false} SpawnKeeps(w: World, e: Event)
    requires Safe(w) && Enabled(w, e) && (e.Spawn? || e.SpawnAborted?)
    ensures Safe(Apply(w, e))
  {
    AdoptKeeps(w, Apply(w, e), e.id, e.p, Apply(w, e).runtimes[e.id].records[e.p]);
  }

  lemma {:induction false} HolderEventKeeps(w: World, e: Event)
    requires Safe(w) && Enabled(w, e) && (e.Outputs? || e.Ends? || e.AbortPersists?)
    ensures Safe(Apply(w, e))
  {
    var r := w.runtimes[e.id].records[e.p];
    assert HeldOk(w, e.id, e.p, r);
    HolderKeeps(w, e.id, e.p, if e.Ends? then EndedRecord(r, e.failed) else r);
  }

  lemma {:induction false} StepKeepsSafe(w: World, e: Event)
    requires Safe(w) && Enabled(w, e)
    ensures Safe(Apply(w, e))
  {
    match e {
      case Read(id, p, now, staleMs) => ReadKeeps(w, id, p, now, staleMs);
      case CancelRun(id, p, taskId, now, staleMs) =>
        ReadKeeps(w, id, p, now, staleMs);
        CancelKeeps(AfterRead(w, id, p, now, staleMs), id, p, taskId);
      case ShutdownTerm(id, p) => TermKeeps(w, id, p);
      case ShutdownKill(id, p) => SignalKeeps(w, id, p);
      case AbortSignals(id, p) => SignalKeeps(w, id, p);
      case AbortEnds(id, p, stored) => AbortEndsKeeps(w, id, p, stored);
      case Spawn(_, _, _) => SpawnKeeps(w, e);
      case SpawnAborted(_, _, _, _) => SpawnKeeps(w, e);
      case Outputs(_, _) => HolderEventKeeps(w, e);
      case Ends(_, _, _) => HolderEventKeeps(w, e);
      case AbortPersists(_, _) => HolderEventKeeps(w, e);
      case StartRuntime(id, pid, now) => StartKeeps(w, id, pid, now);
      case _ => OutsideKeeps(w, e);
    }
  }

  lemma {:induction false} RunIsSafe(ws: seq<World>, es: seq<Event>, k: nat)
    requires IsRun(ws, es) && k < |ws|
    ensures Safe(ws[k])
  {
    if k > 0 {
      RunIsSafe(ws, es, k - 1);
      assert StepsTo(ws[k - 1], es[k - 1], ws[k]);
      StepKeepsSafe(ws[k - 1], es[k - 1]);
    }
  }

  // ----- What an event does, in the terms of the runtime's own calls -----

  /** Nothing differs but the records of the runtime `id`, the store, and what is given here. */
  ghost predicate OnlyBy(
    w: World, id: string, spawner: map<string, nat>, aborting: map<string, bool>, signals: seq<Signal>, w': World)
  {
    && id in w.runtimes && id in w'.runtimes
    && w'.runtimes == w.runtimes[id := w.runtimes[id].(records := w'.runtimes[id].records)]
    && w' == w.(runtimes := w'.runtimes, snapshots := w'.snapshots, spawner := spawner, aborting := aborting,
                signals := signals)
  }

  ghost predicate Quietly(w: World, id: string, w': World) {
    OnlyBy(w, id, w.spawner, w.aborting, w.signals, w')
  }

  ghost predicate ReadsAs(w: World, id: string, p: string, now: int, staleMs: int, w': World) {
    && Quietly(w, id, w')
    && Reads(w.runtimes[id].records, w.snapshots, Observer(id, w.leases, w.livePids, now, staleMs), p,
             w'.runtimes[id].records, w'.snapshots)
  }

  /** A signal is sent exactly when the runtime's own cancellation sends one. */
  ghost predicate CancelledAs(w: World, id: string, p: string, taskId: string, now: int, staleMs: int, w': World) {
    exists error, signals ::
      && OnlyBy(w, id, w.spawner, w.aborting,
                if signals && id in w.runtimes then w.signals + [Signal(w.runtimes[id].life, p)] else w.signals, w')
      && CancelsAs(w.runtimes[id].records, w.snapshots, Observer(id, w.leases, w.livePids, now, staleMs), p, taskId,
                   error, signals, w'.runtimes[id].records, w'.snapshots)
  }

  /** The runtime's record of `p` is now `r`. */
  ghost predicate Caches(w: World, id: string, p: string, r: Record, w': World)
    requires id in w.runtimes && id in w'.runtimes
  {
    w'.runtimes[id].records == w.runtimes[id].records[p := r]
  }

  ghost predicate SavesAs(w: World, p: string, r: Record, w': World) {
    w'.snapshots == w.snapshots[p := Snapshot(r.taskId, r.status, r.owner)]
  }

  /** The child's end is recorded here and stored. */
  ghost predicate EndsAs(w: World, id: string, p: string, failed: bool, w': World) {
    && Quietly(w, id, w') && p in w.runtimes[id].records && p in w'.runtimes[id].records
    && (var r, r' := w.runtimes[id].records[p], w'.runtimes[id].records[p];
        Ownership.Ends(r, failed, r') && Caches(w, id, p, r', w') && SavesAs(w, p, r', w'))
  }

  /** A child spawned here is held here, and stored as running unless its start failed before that. */
  ghost predicate SpawnsAs(w: World, id: string, p: string, taskId: string, w': World) {
    && OnlyBy(w, id, if id in w.runtimes then w.spawner[p := w.runtimes[id].life] else w.spawner, w.aborting,
              w.signals, w')
    && Caches(w, id, p, Record(taskId, Running, Some(id), false, true, false, false), w')
    && w'.snapshots == w.snapshots[p := Snapshot(taskId, Running, Some(id))]
  }

  ghost predicate AbortsAs(w: World, id: string, p: string, taskId: string, stored: bool, w': World) {
    && OnlyBy(w, id, if id in w.runtimes then w.spawner[p := w.runtimes[id].life] else w.spawner,
              w.aborting[p := stored], w.signals, w')
    && Caches(w, id, p, Record(taskId, Cancelling, Some(id), true, true, false, false), w')
    && w'.snapshots == if stored then w.snapshots[p := Snapshot(taskId, Running, Some(id))] else w.snapshots
  }

  /** A running child that is told to stop at shutdown is marked as cancelling and stored first. */
  ghost predicate TermsAs(w: World, id: string, p: string, w': World) {
    && OnlyBy(w, id, w.spawner, w.aborting,
              if id in w.runtimes then w.signals + [Signal(w.runtimes[id].life, p)] else w.signals, w')
    && p in w.runtimes[id].records
    && (var r := w.runtimes[id].records[p];
        if r.status == Running then
          var r' := r.(cancelRequested := true, status := Cancelling);
          Caches(w, id, p, r', w') && SavesAs(w, p, r', w')
        else w'.runtimes == w.runtimes && w'.snapshots == w.snapshots)
  }

  /** The run whose start failed leaves the cache; what was stored of it is stored as failed, if it can be. */
  ghost predicate ForgetsAs(w: World, id: string, p: string, stored: bool, w': World) {
    && Quietly(w, id, w') && p in w.runtimes[id].records
    && w'.runtimes[id].records == w.runtimes[id].records - {p}
    && (var r := w.runtimes[id].records[p];
        if stored && p in w.aborting && w.aborting[p]
        then w'.snapshots == w.snapshots[p := Snapshot(r.taskId, Failed, r.owner)]
        else w'.snapshots == w.snapshots)
  }

  /** A runtime starts with nothing cached, a life of its own and a fresh lease. */
  ghost predicate StartsAs(w: World, id: string, pid: int, now: int, w': World) {
    && w' == w.(runtimes := w'.runtimes, leases := w'.leases, livePids := w.livePids + {pid}, lives := w.lives + 1)
    && w'.runtimes == w.runtimes[id := Runtime(w.lives, pid, map[])]
    && w'.leases == w.leases[id := Lease(pid, Some(now))]
  }

  /** A crash ends the process and leaves the lease behind. */
  ghost predicate CrashesAs(w: World, id: string, w': World) {
    && id in w.runtimes && w' == w.(runtimes := w'.runtimes, livePids := w'.livePids)
    && w'.runtimes == w.runtimes - {id} && w'.livePids == w.livePids - {w.runtimes[id].pid}
  }

  ghost predicate Signals(w: World, id: string, p: string, w': World) {
    id in w.runtimes && w' == w.(signals := w.signals + [Signal(w.runtimes[id].life, p)])
  }

  ghost predicate Does(w: World, e: Event, w': World) {
    match e
    case StartRuntime(id, pid, now) => StartsAs(w, id, pid, now, w')
    case CrashRuntime(id) => CrashesAs(w, id, w')
    case Heartbeat(id, now) =>
      id in w.runtimes && w' == w.(leases := w.leases[id := Lease(w.runtimes[id].pid, Some(now))])
    case ReleaseLease(id) => w' == w.(leases := w.leases - {id})
    case OtherPid(pid, alive) =>
      w' == w.(livePids := w'.livePids) && forall x :: x in w'.livePids <==> if x == pid then alive else x in w.livePids
    case Spawn(id, p, taskId) => SpawnsAs(w, id, p, taskId, w')
    case Outputs(id, p) =>
      OwnChild(w, id, p) && w' == w.(snapshots := w'.snapshots) && SavesAs(w, p, w.runtimes[id].records[p], w')
    case Ends(id, p, failed) => EndsAs(w, id, p, failed, w')
    case Read(id, p, now, staleMs) => ReadsAs(w, id, p, now, staleMs, w')
    case CancelRun(id, p, taskId, now, staleMs) => CancelledAs(w, id, p, taskId, now, staleMs, w')
    case ShutdownTerm(id, p) => TermsAs(w, id, p, w')
    case ShutdownKill(id, p) => Signals(w, id, p, w')
    case SpawnAborted(id, p, taskId, stored) => AbortsAs(w, id, p, taskId, stored, w')
    case AbortPersists(id, p) =>
      OwnChild(w, id, p) && w' == w.(snapshots := w'.snapshots) && SavesAs(w, p, w.runtimes[id].records[p], w')
    case AbortSignals(id, p) => Signals(w, id, p, w')
    case AbortEnds(id, p, stored) => ForgetsAs(w, id, p, stored, w')
  }

  lemma {:induction false} ReadingMeans(w: World, id: string, p: string, now: int, staleMs: int)
    requires id in w.runtimes
    ensures ReadsAs(w, id, p, now, staleMs, AfterRead(w, id, p, now, staleMs))
  {
    ReadMeans(w.runtimes[id].records, w.snapshots, Observer(id, w.leases, w.livePids, now, staleMs), p);
  }

  /** Cancelling reads first; whether it signals is decided by what was read. */
  lemma {:induction false} CancellingMeans(w: World, id: string, p: string, taskId: string, now: int, staleMs: int)
    requires id in w.runtimes
    ensures CancelledAs(w, id, p, taskId, now, staleMs, AfterCancel(AfterRead(w, id, p, now, staleMs), id, p, taskId))
  {
    var t, o := w.runtimes[id], Observer(id, w.leases, w.livePids, now, staleMs);
    var rs, ss := RecordsRead(t.records, w.snapshots, o, p), SnapshotsRead(t.records, w.snapshots, o, p);
    var r := AfterRead(w, id, p, now, staleMs);
    ReadingMeans(w, id, p, now, staleMs);
    var w' := AfterCancel(r, id, p, taskId);
    var known, signals := Knows(t.records, p) || p in w.snapshots, Cancels(rs, p, taskId);
    var error := if known then CancelRefusal(rs, p, taskId) else Some(NotFound);
    CancelMeans(rs, ss, p, taskId);
    assert r.runtimes[id].records == rs && r.snapshots == ss;
    assert AnswersCancel(known, rs, ss, p, taskId, error, signals, w'.runtimes[id].records, w'.snapshots);
    Answered(t.records, w.snapshots, o, p, taskId, error, signals, rs, ss, w'.runtimes[id].records, w'.snapshots);
  }

  lemma {:induction false} EndingMeans(w: World, id: string, p: string, failed: bool)
    requires OwnChild(w, id, p)
    ensures EndsAs(w, id, p, failed, Stored(w, id, p, EndedRecord(w.runtimes[id].records[p], failed)))
  {
    EndMeans(w.runtimes[id].records[p], failed);
  }

  lemma {:induction false} SavingMeans(w: World, id: string, p: string)
    requires OwnChild(w, id, p)
    ensures Stored(w, id, p, w.runtimes[id].records[p]) ==
            w.(snapshots := w.snapshots[p := Durable(w.runtimes[id].records[p])])
  {
    var t := w.runtimes[id];
    assert t.records[p := t.records[p]] == t.records;
    assert w.runtimes[id := t] == w.runtimes;
  }

  lemma {:induction false} RuntimeMeans(w: World, e: Event)
    requires Enabled(w, e)
    requires e.StartRuntime? || e.CrashRuntime? || e.Heartbeat? || e.ReleaseLease? || e.OtherPid?
    ensures Does(w, e, Apply(w, e))
  {
  }

  lemma {:induction false} ChildMeans(w: World, e: Event)
    requires Enabled(w, e) && (e.Spawn? || e.SpawnAborted? || e.ShutdownTerm? || e.AbortEnds?)
    ensures Does(w, e, Apply(w, e))
  {
  }

  /** Every event does to the runtime it is about what the runtime's own call does, and nothing else. */
  lemma {:induction false} EventMeans(w: World, e: Event)
    requires Enabled(w, e)
    ensures Does(w, e, Apply(w, e))
  {
    match e {
      case Read(id, p, now, staleMs) => ReadingMeans(w, id, p, now, staleMs);
      case CancelRun(id, p, taskId, now, staleMs) => CancellingMeans(w, id, p, taskId, now, staleMs);
      case Ends(id, p, failed) => EndingMeans(w, id, p, failed);
      case Outputs(id, p) => SavingMeans(w, id, p);
      case AbortPersists(id, p) => SavingMeans(w, id, p);
      case ShutdownKill(_, _) =>
      case AbortSignals(_, _) =>
      case Spawn(_, _, _) => ChildMeans(w, e);
      case SpawnAborted(_, _, _, _) => ChildMeans(w, e);
      case ShutdownTerm(_, _) => ChildMeans(w, e);
      case AbortEnds(_, _, _) => ChildMeans(w, e);
      case _ => RuntimeMeans(w, e);
    }
  }

  /** What can happen to a child: whoever spawned it and did not fail to start it passes on its output
      and its end, one that failed signals it until it ends, and a shutdown signals both. */
  lemma {:induction false} HappensExactly(w: World, id: string, p: string, flag: bool)
    ensures
      var holds := id in w.runtimes && p in w.runtimes[id].records && w.runtimes[id].records[p].child;
      && (Enabled(w, Outputs(id, p)) <==> holds && p !in w.aborting)
      && (Enabled(w, Event.Ends(id, p, flag)) <==> holds && p !in w.aborting)
      && (Enabled(w, AbortPersists(id, p)) <==> holds && p in w.aborting && w.aborting[p])
      && (Enabled(w, AbortSignals(id, p)) <==> holds && p in w.aborting)
      && (Enabled(w, AbortEnds(id, p, flag)) <==> holds && p in w.aborting)
      && (Enabled(w, ShutdownTerm(id, p)) <==> holds) && (Enabled(w, ShutdownKill(id, p)) <==> holds)
  {
  }

  /** A start can succeed or fail wherever the process is new. */
  lemma {:induction false} SpawnsExactly(w: World, id: string, p: string, taskId: string, stored: bool)
    requires p in w.aborting ==> p in w.spawner
    ensures Enabled(w, Spawn(id, p, taskId)) <==> Enabled(w, SpawnAborted(id, p, taskId, stored))
    ensures
      Enabled(w, Spawn(id, p, taskId)) <==>
      id in w.runtimes && id != "" && p !in w.spawner && p !in w.snapshots && p !in w.runtimes[id].records
  {
  }

  // ----- Theorems -----

  /** Every signal ever sent went to a process that the very incarnation that sent it had spawned. */
  lemma {:induction false} SignalsOnlyOwnChildren(ws: seq<World>, es: seq<Event>, k: nat, s: Signal)
    requires IsRun(ws, es) && k < |ws| && s in ws[k].signals
    ensures s.process in ws[k].spawner && ws[k].spawner[s.process] == s.life
  {
    RunIsSafe(ws, es, k);
  }

  /** A run has at most one runtime holding its child, the one the store names as its owner;
      only a run whose start failed may be unknown to the store. */
  lemma {:induction false} OneHolder(ws: seq<World>, es: seq<Event>, k: nat, a: string, b: string, p: string)
    requires IsRun(ws, es) && k < |ws| && OwnChild(ws[k], a, p) && OwnChild(ws[k], b, p)
    ensures a == b
    ensures if p in ws[k].snapshots then ws[k].snapshots[p].owner == Some(a) else p in ws[k].aborting
  {
    RunIsSafe(ws, es, k);
    assert RuntimeOk(ws[k], a) && RuntimeOk(ws[k], b);
  }

  /** What makes a run be given up: somebody who does not know it from its own cache asks for it,
      while the stored owner is nobody, the asker itself, or a runtime without a lease or process. */
  predicate GivesUp(w: World, e: Event, p: string) {
    (e.Read? || e.CancelRun?) && e.p == p && e.id in w.runtimes && AsksInVain(w, e.id, p)
  }

  predicate AsksInVain(w: World, id: string, p: string)
    requires id in w.runtimes
  {
    && !AnswersFromCache(w.runtimes[id].records, p) && p in w.snapshots
    && (var owner := w.snapshots[p].owner;
        || owner.None? || owner.value == "" || owner.value == id || owner.value !in w.leases
        || w.leases[owner.value].pid <= 0 || w.leases[owner.value].pid !in w.livePids)
  }

  lemma {:induction false} ReadGivesUp(w: World, id: string, q: string, now: int, staleMs: int, p: string)
    requires id in w.runtimes && p in w.snapshots && IsActive(w.snapshots[p].status)
    ensures
      var w' := AfterRead(w, id, q, now, staleMs);
      && id in w'.runtimes && p in w'.snapshots
      && (w'.snapshots[p].status == Interrupted <==> q == p && AsksInVain(w, id, p))
      && (q == p && AsksInVain(w, id, p) ==>
            p in w'.runtimes[id].records && w'.runtimes[id].records[p].status == Interrupted)
  {
    InterruptedExactlyWhen(ObserverOf(w, id, now, staleMs), w.snapshots[p]);
  }

  lemma {:induction false} CancelGivesUp(
    w: World, id: string, q: string, taskId: string, now: int, staleMs: int, p: string)
    requires id in w.runtimes && p in w.snapshots && IsActive(w.snapshots[p].status)
    ensures
      var w' := AfterCancel(AfterRead(w, id, q, now, staleMs), id, q, taskId);
      p in w'.snapshots && (w'.snapshots[p].status == Interrupted <==> q == p && AsksInVain(w, id, p))
  {
    ReadGivesUp(w, id, q, now, staleMs, p);
  }

  lemma {:induction false} HolderGivesNothingUp(w: World, e: Event, p: string)
    requires Safe(w) && Enabled(w, e) && p in w.snapshots && IsActive(w.snapshots[p].status)
    requires e.Outputs? || e.Ends? || e.ShutdownTerm? || e.AbortPersists? || e.AbortEnds?
    ensures p in Apply(w, e).snapshots && Apply(w, e).snapshots[p].status != Interrupted
  {
    assert OwnChild(w, e.id, e.p) && RuntimeOk(w, e.id);
    assert RecordOk(w, e.id, w.runtimes[e.id].life, e.p, w.runtimes[e.id].records[e.p]);
  }

  lemma {:induction false} OthersGiveNothingUp(w: World, e: Event, p: string)
    requires Enabled(w, e) && p in w.snapshots && IsActive(w.snapshots[p].status) && !e.Read? && !e.CancelRun?
    requires !e.Outputs? && !e.Ends? && !e.ShutdownTerm? && !e.AbortPersists? && !e.AbortEnds?
    ensures p in Apply(w, e).snapshots && Apply(w, e).snapshots[p].status != Interrupted
  {
  }

  /** The event leaves the run active or ended, or gives it up for one of these reasons. */
  ghost predicate GivesUpRightly(w: World, e: Event, p: string)
    requires Enabled(w, e)
  {
    var w' := Apply(w, e);
    p in w'.snapshots && (w'.snapshots[p].status == Interrupted <==> GivesUp(w, e, p))
  }

  lemma {:induction false} AskingGivesUp(w: World, e: Event, p: string)
    requires Enabled(w, e) && p in w.snapshots && IsActive(w.snapshots[p].status) && (e.Read? || e.CancelRun?)
    ensures GivesUpRightly(w, e, p)
  {
    if e.Read? {
      ReadGivesUp(w, e.id, e.p, e.now, e.staleMs, p);
    } else {
      CancelGivesUp(w, e.id, e.p, e.taskId, e.now, e.staleMs, p);
    }
  }

  lemma {:induction false} StepGivesUp(w: World, e: Event, p: string)
    requires Safe(w) && Enabled(w, e) && p in w.snapshots && IsActive(w.snapshots[p].status)
    ensures GivesUpRightly(w, e, p)
  {
    if e.Read? || e.CancelRun? {
      AskingGivesUp(w, e, p);
    } else if e.Outputs? || e.Ends? || e.ShutdownTerm? || e.AbortPersists? || e.AbortEnds? {
      HolderGivesNothingUp(w, e, p);
    } else {
      OthersGiveNothingUp(w, e, p);
    }
  }

  /** In every run, an active run becomes interrupted exactly in these events. */
  lemma {:induction false} GivenUpExactlyWhen(ws: seq<World>, es: seq<Event>, k: nat, p: string)
    requires IsRun(ws, es) && k < |es| && p in ws[k].snapshots && IsActive(ws[k].snapshots[p].status)
    ensures p in ws[k + 1].snapshots
    ensures ws[k + 1].snapshots[p].status == Interrupted <==> GivesUp(ws[k], es[k], p)
  {
    RunIsSafe(ws, es, k);
    assert StepsTo(ws[k], es[k], ws[k + 1]);
    StepGivesUp(ws[k], es[k], p);
  }

  /** So nothing anywhere ever gives up a run whose child is held by a running runtime that
      keeps its lease, however late its heartbeat. */
  lemma {:induction false} HeldRunsAreNotGivenUp(ws: seq<World>, es: seq<Event>, k: nat, o: string, p: string)
    requires IsRun(ws, es) && k < |es| && OwnChild(ws[k], o, p) && o in ws[k].leases
    requires p in ws[k].snapshots && IsActive(ws[k].snapshots[p].status)
    ensures p in ws[k + 1].snapshots && ws[k + 1].snapshots[p].status != Interrupted
  {
    RunIsSafe(ws, es, k);
    HeldIsNotAskedInVain(ws[k], es[k], o, p);
    GivenUpExactlyWhen(ws, es, k, p);
  }

  lemma {:induction false} HeldIsNotAskedInVain(w: World, e: Event, o: string, p: string)
    requires Safe(w) && OwnChild(w, o, p) && o in w.leases && p in w.snapshots
    ensures !GivesUp(w, e, p)
  {
    assert RuntimeOk(w, o) && HeldOk(w, o, p, w.runtimes[o].records[p]);
    assert RecordOk(w, o, w.runtimes[o].life, p, w.runtimes[o].records[p]);
  }
}
