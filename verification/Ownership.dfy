/** Which runtime owns a run: leases, restored records, and who may be signalled. */
module Ownership {
  import opened Base

  datatype RunStatus = Running | Cancelling | Exited | Failed | Cancelled | Interrupted

  datatype Lease = Lease(pid: int, heartbeatAt: Option<int>)

  datatype OwnerState = Dead | Local | Stale | Alive

  /** The durable process record. */
  datatype Snapshot = Snapshot(taskId: string, status: RunStatus, owner: Option<string>)

  /** A runtime's own view of a process; `child` says it holds the child's handle. */
  datatype Record = Record(
    taskId: string,
    status: RunStatus,
    owner: Option<string>,
    cancelRequested: bool,
    child: bool,
    remoteOwner: bool,
    remoteOwnerStale: bool)

  datatype ProcessError = NotFound | TaskMismatch | NotOwned

  /** What a runtime can observe: its own id, the leases, the live pids and the clock. */
  datatype Observer = Observer(me: string, leases: map<string, Lease>, livePids: set<int>, now: int, staleMs: int)

  predicate IsActive(s: RunStatus) {
    s == Running || s == Cancelling
  }

  predicate PidAlive(o: Observer, pid: int) {
    pid > 0 && pid in o.livePids
  }

  function OwnerStateOf(o: Observer, id: Option<string>): OwnerState {
    if id.None? || id.value == "" then Dead
    else if id.value == o.me then Local
    else if id.value !in o.leases then Dead
    else
      var lease := o.leases[id.value];
      if !PidAlive(o, lease.pid) then Dead
      else if lease.heartbeatAt.None? || o.now - lease.heartbeatAt.value > o.staleMs then Stale
      else Alive
  }

  function Durable(r: Record): Snapshot {
    Snapshot(r.taskId, r.status, r.owner)
  }

  /** The record a runtime builds from a durable one. */
  function Restored(o: Observer, s: Snapshot): Record {
    var plain := Record(s.taskId, s.status, s.owner, false, false, false, false);
    if !IsActive(s.status) then plain
    else if s.owner == Some(o.me) then plain.(status := Interrupted)
    else
      match OwnerStateOf(o, s.owner)
      case Alive => plain.(remoteOwner := true)
      case Stale => plain.(remoteOwner := true, remoteOwnerStale := true)
      case _ => plain.(status := Interrupted)
  }

  /** An active run is given up exactly when nobody can be holding its child. */
  lemma {:induction false} InterruptedExactlyWhen(o: Observer, s: Snapshot)
    requires IsActive(s.status)
    ensures Restored(o, s).status == Interrupted <==>
      || s.owner.None? || s.owner.value == ""
      || s.owner.value == o.me
      || s.owner.value !in o.leases
      || !PidAlive(o, o.leases[s.owner.value].pid)
    ensures Restored(o, s).status != Interrupted ==> Durable(Restored(o, s)) == s
  {
  }

  /** Heartbeats, the clock and the staleness limit never decide whether a run is given up. */
  lemma {:induction false} StaleHeartbeatNeverInterrupts(o: Observer, o': Observer, s: Snapshot)
    requires o.me == o'.me && o.livePids == o'.livePids && o.leases.Keys == o'.leases.Keys
    requires forall id | id in o.leases :: o.leases[id].pid == o'.leases[id].pid
    ensures Durable(Restored(o, s)) == Durable(Restored(o', s))
  {
  }

  // ----- Answering calls from a runtime's records and the store -----

  type Records = map<string, Record>

  type Snapshots = map<string, Snapshot>

  /** A cached record answers unless it is an active run of another runtime. */
  predicate AnswersFromCache(records: Records, p: string) {
    p in records && !(records[p].remoteOwner && IsActive(records[p].status))
  }

  predicate MustRestore(records: Records, snapshots: Snapshots, p: string) {
    !AnswersFromCache(records, p) && p in snapshots
  }

  function RecordsRead(records: Records, snapshots: Snapshots, o: Observer, p: string): Records {
    if MustRestore(records, snapshots, p) then records[p := Restored(o, snapshots[p])] else records
  }

  /** Reading writes the store only to give a run up. */
  function SnapshotsRead(records: Records, snapshots: Snapshots, o: Observer, p: string): Snapshots {
    if MustRestore(records, snapshots, p) && Restored(o, snapshots[p]).status != snapshots[p].status
    then snapshots[p := Durable(Restored(o, snapshots[p]))]
    else snapshots
  }

  function CancelRefusal(records: Records, p: string, taskId: string): Option<ProcessError> {
    if p !in records then Some(NotFound)
    else if records[p].taskId != taskId then Some(TaskMismatch)
    else if records[p].remoteOwner && IsActive(records[p].status) then Some(NotOwned)
    else None
  }

  predicate Cancels(records: Records, p: string, taskId: string) {
    CancelRefusal(records, p, taskId).None? && records[p].status == Running
  }

  function CancellingRecord(r: Record): Record {
    r.(cancelRequested := true, status := Cancelling)
  }

  function EndedRecord(r: Record, failed: bool): Record {
    var status :=
      if failed then Failed
      else if r.cancelRequested then Cancelled
      else if r.status == Failed then Failed else Exited;
    r.(status := status, child := false, remoteOwner := false)
  }

  // ----- What these do, said without them -----

  ghost predicate Runs(s: RunStatus) {
    s in {Running, Cancelling}
  }

  ghost predicate NoOwner(s: Snapshot) {
    s.owner.None? || s.owner.value == ""
  }

  /** Somebody else's lease, whose process lives. */
  ghost predicate HeldElsewhere(o: Observer, s: Snapshot) {
    && !NoOwner(s) && s.owner.value != o.me && s.owner.value in o.leases
    && o.leases[s.owner.value].pid > 0 && o.leases[s.owner.value].pid in o.livePids
  }

  ghost predicate Late(o: Observer, s: Snapshot)
    requires HeldElsewhere(o, s)
  {
    var beat := o.leases[s.owner.value].heartbeatAt;
    beat.None? || o.now - beat.value > o.staleMs
  }

  /** What a runtime makes of a stored run: an ended one as it is, a running one of somebody else's as
      remote, and any other as interrupted. It never holds its child. */
  ghost predicate Rebuilds(o: Observer, s: Snapshot, r: Record) {
    && r.taskId == s.taskId && r.owner == s.owner && !r.cancelRequested && !r.child
    && (r.remoteOwner <==> Runs(s.status) && HeldElsewhere(o, s))
    && (r.remoteOwnerStale <==> Runs(s.status) && HeldElsewhere(o, s) && Late(o, s))
    && r.status == if Runs(s.status) && !HeldElsewhere(o, s) then Interrupted else s.status
  }

  /** A runtime's own record is good unless it is of a run of somebody else's. */
  ghost predicate Knows(records: Records, p: string) {
    p in records && !(records[p].remoteOwner && Runs(records[p].status))
  }

  /** Reading asks the store only for what is not known, and writes there only to give a run up. */
  ghost predicate Reads(
    records: Records, snapshots: Snapshots, o: Observer, p: string, records': Records, snapshots': Snapshots)
  {
    if Knows(records, p) || p !in snapshots then records' == records && snapshots' == snapshots
    else
      && p in records' && records' == records[p := records'[p]] && Rebuilds(o, snapshots[p], records'[p])
      && snapshots' ==
           if Runs(snapshots[p].status) && records'[p].status == Interrupted
           then snapshots[p := Snapshot(snapshots[p].taskId, Interrupted, snapshots[p].owner)] else snapshots
  }

  /** What a cancellation does: it reads, refuses what is not known, belongs to another task or is held
      elsewhere, and signals a run of this runtime that was not yet asked to stop. */
  ghost predicate AnswersCancel(
    known: bool, records: Records, snapshots: Snapshots, p: string, taskId: string, error: Option<ProcessError>,
    signals: bool, records': Records, snapshots': Snapshots)
  {
    && (error == Some(NotFound) <==> !known)
    && (known ==> p in records)
    && (known ==> (error == Some(TaskMismatch) <==> records[p].taskId != taskId))
    && (known ==>
          (error == Some(NotOwned) <==>
             records[p].taskId == taskId && records[p].remoteOwner && Runs(records[p].status)))
    && (signals <==> error.None? && records[p].status == Running)
    && if signals then
         && records' == records[p := records[p].(cancelRequested := true, status := Cancelling)]
         && snapshots' == snapshots[p := Snapshot(records[p].taskId, Cancelling, records[p].owner)]
       else records' == records && snapshots' == snapshots
  }

  ghost predicate CancelsAs(
    records: Records, snapshots: Snapshots, o: Observer, p: string, taskId: string, error: Option<ProcessError>,
    signals: bool, records': Records, snapshots': Snapshots)
  {
    exists rs, ss ::
      && Reads(records, snapshots, o, p, rs, ss)
      && AnswersCancel(Knows(records, p) || p in snapshots, rs, ss, p, taskId, error, signals, records', snapshots')
  }

  /** How a run ends: failed if its child could not be run or failed before, cancelled if that was asked for. */
  ghost predicate Ends(r: Record, failed: bool, r': Record) {
    && r' == r.(status := r'.status, child := false, remoteOwner := false)
    && (r'.status == Failed <==> failed || (!r.cancelRequested && r.status == Failed))
    && (r'.status == Cancelled <==> !failed && r.cancelRequested)
    && (r'.status == Exited <==> !failed && !r.cancelRequested && r.status != Failed)
  }

  lemma {:induction false} StateMeans(o: Observer, s: Snapshot)
    ensures OwnerStateOf(o, s.owner) == Local <==> !NoOwner(s) && s.owner.value == o.me
    ensures OwnerStateOf(o, s.owner) == Dead <==> NoOwner(s) || (s.owner.value != o.me && !HeldElsewhere(o, s))
    ensures OwnerStateOf(o, s.owner) == Stale <==> HeldElsewhere(o, s) && Late(o, s)
    ensures OwnerStateOf(o, s.owner) == Alive <==> HeldElsewhere(o, s) && !Late(o, s)
  {
  }

  lemma {:induction false} RestoredMeans(o: Observer, s: Snapshot)
    ensures Rebuilds(o, s, Restored(o, s))
  {
    StateMeans(o, s);
  }

  lemma {:induction false} ReadMeans(records: Records, snapshots: Snapshots, o: Observer, p: string)
    ensures
      Reads(records, snapshots, o, p, RecordsRead(records, snapshots, o, p), SnapshotsRead(records, snapshots, o, p))
  {
    if p in snapshots {
      RestoredMeans(o, snapshots[p]);
    }
  }

  lemma {:induction false} CancelMeans(records: Records, snapshots: Snapshots, p: string, taskId: string)
    ensures
      var cancels := Cancels(records, p, taskId);
      AnswersCancel(
        p in records, records, snapshots, p, taskId, CancelRefusal(records, p, taskId), cancels,
        if cancels then records[p := CancellingRecord(records[p])] else records,
        if cancels then snapshots[p := Durable(CancellingRecord(records[p]))] else snapshots)
  {
  }

  /** What was read answers the cancellation. */
  lemma {:induction false} Answered(
    records: Records, snapshots: Snapshots, o: Observer, p: string, taskId: string, error: Option<ProcessError>,
    signals: bool, rs: Records, ss: Snapshots, records': Records, snapshots': Snapshots)
    requires Reads(records, snapshots, o, p, rs, ss)
    requires AnswersCancel(
               Knows(records, p) || p in snapshots, rs, ss, p, taskId, error, signals, records', snapshots')
    ensures CancelsAs(records, snapshots, o, p, taskId, error, signals, records', snapshots')
  {
  }

  lemma {:induction false} EndMeans(r: Record, failed: bool)
    ensures Ends(r, failed, EndedRecord(r, failed))
  {
  }

  class ProcessStore {
    var snapshots: map<string, Snapshot>

    constructor ()
      ensures snapshots == map[]
    {
      snapshots := map[];
    }
  }

  class ProcessRuntime {
    const id: string
    const store: ProcessStore
    var records: map<string, Record>
    /** Every process this runtime has spawned. */
    ghost var spawned: set<string>
    /** Every process this runtime has sent a signal to. */
    ghost var signalled: set<string>

    ghost predicate RecordOk(p: string)
      requires p in records
      reads this
    {
      var r := records[p];
      && (IsActive(r.status) ==> r.child != r.remoteOwner)
      && (!IsActive(r.status) ==> !r.child && !r.remoteOwner)
      && (r.child ==> p in spawned && r.owner == Some(id))
      && (r.remoteOwner ==> r.owner.Some? && r.owner != Some(id))
    }

    ghost predicate Valid()
      reads this
    {
      && (forall p | p in records :: RecordOk(p))
      && signalled <= spawned
    }

    constructor (id: string, store: ProcessStore)
      ensures Valid() && this.id == id && this.store == store && records == map[] && spawned == {} && signalled == {}
    {
      this.id := id;
      this.store := store;
      records, spawned, signalled := map[], {}, {};
    }

    method Persist(p: string)
      requires p in records
      modifies store
      ensures store.snapshots == old(store.snapshots)[p := Durable(records[p])]
    {
      store.snapshots := store.snapshots[p := Durable(records[p])];
    }

    /** Rebuilds the record of `p` from the store; writes the store only to interrupt the run. */
    method Restore(p: string, o: Observer) returns (found: bool)
      requires Valid() && o.me == id
      requires p in records ==> !records[p].child
      modifies this, store
      ensures Valid() && spawned == old(spawned) && signalled == old(signalled)
      ensures found <==> p in old(store.snapshots)
      ensures !found ==> records == old(records) && store.snapshots == old(store.snapshots)
      ensures found ==> p in records && Rebuilds(o, old(store.snapshots)[p], records[p])
      ensures found ==>
        var r := Restored(o, old(store.snapshots)[p]);
        && records == old(records)[p := r]
        && store.snapshots ==
            if r.status == old(store.snapshots)[p].status then old(store.snapshots)
            else old(store.snapshots)[p := Durable(r)]
    {
      if p !in store.snapshots {
        return false;
      }
      var s := store.snapshots[p];
      RestoredMeans(o, s);
      var r := Record(s.taskId, s.status, s.owner, false, false, false, false);
      var interrupted := false;
      if IsActive(r.status) {
        if r.owner == Some(id) {
          interrupted := true;
        } else {
          var state := OwnerStateOf(o, r.owner);
          if state == Alive || state == Stale {
            r := r.(remoteOwner := true, remoteOwnerStale := state == Stale);
          } else {
            interrupted := true;
          }
        }
      }
      if interrupted {
        r := r.(status := Interrupted);
      }
      records := records[p := r];
      if interrupted {
        Persist(p);
      }
      return true;
    }

    /** The record to answer from: cached, or restored when absent or owned elsewhere. */
    method Get(p: string, o: Observer) returns (found: bool)
      requires Valid() && o.me == id
      modifies this, store
      ensures Valid() && spawned == old(spawned) && signalled == old(signalled)
      ensures records == RecordsRead(old(records), old(store.snapshots), o, p)
      ensures store.snapshots == SnapshotsRead(old(records), old(store.snapshots), o, p)
      ensures Reads(old(records), old(store.snapshots), o, p, records, store.snapshots)
      ensures found ==> p in records
      ensures found <==> Knows(old(records), p) || p in old(store.snapshots)
    {
      ReadMeans(records, store.snapshots, o, p);
      if p in records && !(records[p].remoteOwner && IsActive(records[p].status)) {
        return true;
      }
      assert p in records ==> RecordOk(p);
      found := Restore(p, o);
    }

    /** A child has just been spawned here and its record is cached and stored. */
    method AdoptChild(p: string, taskId: string)
      requires Valid() && p !in records
      modifies this, store
      ensures Valid() && spawned == old(spawned) + {p} && signalled == old(signalled)
      ensures records == old(records)[p := Record(taskId, Running, Some(id), false, true, false, false)]
      ensures store.snapshots == old(store.snapshots)[p := Snapshot(taskId, Running, Some(id))]
    {
      spawned := spawned + {p};
      records := records[p := Record(taskId, Running, Some(id), false, true, false, false)];
      assert forall q | q in old(records) :: old(RecordOk(q)) ==> RecordOk(q);
      Persist(p);
    }

    /** The child could not be run, or has closed: its handle is gone and the end is stored. */
    method ChildEnded(p: string, failed: bool)
      requires Valid() && p in records && p in spawned
      modifies this, store
      ensures Valid() && spawned == old(spawned) && signalled == old(signalled)
      ensures records == old(records)[p := EndedRecord(old(records)[p], failed)]
      ensures p in records && Ends(old(records)[p], failed, records[p])
      ensures store.snapshots == old(store.snapshots)[p := Durable(records[p])]
    {
      var r := records[p];
      EndMeans(r, failed);
      if failed {
        r := r.(status := Failed);
      } else if r.cancelRequested {
        r := r.(status := Cancelled);
      } else if r.status != Failed {
        r := r.(status := Exited);
      }
      records := records[p := r.(child := false, remoteOwner := false)];
      Persist(p);
    }

    /** Signals the process group of `p` exactly when it is running and this runtime spawned it. */
    method Cancel(p: string, taskId: string, o: Observer) returns (error: Option<ProcessError>)
      requires Valid() && o.me == id
      modifies this, store
      ensures Valid() && spawned == old(spawned)
      ensures signalled == old(signalled) || signalled == old(signalled) + {p}
      ensures exists signals ::
        && CancelsAs(old(records), old(store.snapshots), o, p, taskId, error, signals, records, store.snapshots)
        && signalled == if signals then old(signalled) + {p} else old(signalled)
      ensures
        var rs := RecordsRead(old(records), old(store.snapshots), o, p);
        var ss := SnapshotsRead(old(records), old(store.snapshots), o, p);
        if Cancels(rs, p, taskId) then
          && error.None? && records == rs[p := CancellingRecord(rs[p])]
          && store.snapshots == ss[p := Durable(CancellingRecord(rs[p]))]
          && signalled == old(signalled) + {p} && p in spawned
        else
          && records == rs && store.snapshots == ss && signalled == old(signalled)
          && (error.Some? ==> error == CancelRefusal(rs, p, taskId) || (error == Some(NotFound) && p !in ss))
          && (error.None? ==> CancelRefusal(rs, p, taskId).None?)
    {
      ghost var was, stored := records, store.snapshots;
      var found := Get(p, o);
      ghost var rs, ss := records, store.snapshots;
      assert Reads(was, stored, o, p, rs, ss);
      if !found {
        Answered(was, stored, o, p, taskId, Some(NotFound), false, rs, ss, rs, ss);
        return Some(NotFound);
      }
      var r := records[p];
      assert RecordOk(p);
      if r.taskId != taskId {
        Answered(was, stored, o, p, taskId, Some(TaskMismatch), false, rs, ss, rs, ss);
        return Some(TaskMismatch);
      }
      if r.remoteOwner && IsActive(r.status) {
        Answered(was, stored, o, p, taskId, Some(NotOwned), false, rs, ss, rs, ss);
        return Some(NotOwned);
      }
      if r.status != Running {
        Answered(was, stored, o, p, taskId, None, false, rs, ss, rs, ss);
        return None;
      }
      records := records[p := r.(cancelRequested := true, status := Cancelling)];
      Persist(p);
      signalled := signalled + {p};
      Answered(was, stored, o, p, taskId, None, true, rs, ss, records, store.snapshots);
      return None;
    }
  }
}
