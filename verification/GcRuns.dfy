/** Collecting one worktree while others use it: several collection attempts, commits made
    outside (which take the HEAD lock), and edits, in any order and with crashes anywhere. */
module GcRuns {
  import opened Base

  /** Who created the lock file that is there now. */
  datatype Holder = ByAttempt(attempt: nat) | ByOutside(actor: nat)

  /** How far an attempt has come. From `Anchored` on its safety ref has been verified; from
      `Locked` on it has created the lock; `Leaving` still has the final unlink ahead of it. */
  datatype Pc =
    | Fresh
    | SawClean
    | SawHead
    | RefMissing
    | RefFound(existing: string)
    | CreateFailed
    | RefHeld
    | Anchored
    | Locked
    | LockedClean
    | LockedMatch
    | Leaving(removed: bool)

  datatype Attempt = Attempt(expected: string, pc: Pc)

  /** What was true of the worktree at the moment it was removed. */
  datatype Removal = Removal(
    remover: nat,
    head: string,
    dirty: bool,
    expected: string,
    safety: Option<string>,
    robbed: bool)

  /** `believers` are outside operations that created a lock and have not finished;
      `robbed` are attempts whose lock file somebody else took away. */
  datatype World = World(
    present: bool,
    head: string,
    dirty: bool,
    lock: Option<Holder>,
    safety: Option<string>,
    cleaned: bool,
    attempts: map<nat, Attempt>,
    used: set<nat>,
    believers: set<nat>,
    robbed: set<nat>,
    removals: seq<Removal>)

  datatype Step =
    | CheckClean
    | CheckHead
    | ReadRef
    | CompareRef
    | CreateRef
    | ReadRaced
    | VerifyRef
    | SkipMissing
    | OpenLock
    | FailToOpen
    | FailLocked
    | FailToPrune
    | CheckCleanLocked
    | CheckHeadLocked
    | RemoveTree
    | GiveUp
    | Unlink

  datatype Event =
    | Begin(a: nat, expected: string)
    | By(a: nat, step: Step)
    | Crash(a: nat)
    | Edit
    | OutsideLock(o: nat)
    | OutsideCommit(o: nat, sha: string, leavesDirty: bool)
    | OutsideAbort(o: nat)

  predicate HoldsLock(pc: Pc) {
    pc == Locked || pc == LockedClean || pc == LockedMatch
  }

  /** The lock file disappears; an attempt that had created it, other than `self`, is robbed. */
  function DropLock(w: World, self: Option<nat>): World {
    w.(lock := None,
       robbed := if w.lock.Some? && w.lock.value.ByAttempt? && self != Some(w.lock.value.attempt)
                 then w.robbed + {w.lock.value.attempt} else w.robbed)
  }

  function Goto(w: World, a: nat, pc: Pc): World
    requires a in w.attempts
  {
    w.(attempts := w.attempts[a := w.attempts[a].(pc := pc)])
  }

  function Gone(w: World, a: nat): World {
    w.(attempts := w.attempts - {a})
  }

  predicate StepEnabled(w: World, a: nat, s: Step)
    requires a in w.attempts
  {
    var pc := w.attempts[a].pc;
    match s
    case CheckClean => pc == Fresh
    case CheckHead => pc == SawClean
    case ReadRef => pc == SawHead
    case CompareRef => pc.RefFound?
    case CreateRef => pc == RefMissing
    case ReadRaced => pc == CreateFailed
    case VerifyRef => pc == RefHeld
    case SkipMissing => pc == Anchored && !w.present
    case OpenLock => pc == Anchored && w.present
    case FailToOpen => pc == Anchored && w.present
    case FailLocked => HoldsLock(pc)
    case FailToPrune => pc == Leaving(true)
    case CheckCleanLocked => pc == Locked
    case CheckHeadLocked => pc == LockedClean
    case RemoveTree => pc == LockedMatch
    case GiveUp => !HoldsLock(pc) && !pc.Leaving?
    case Unlink => pc.Leaving?
  }

  /** The checks before the safety ref, and the ref itself: created only where none is, and
      accepted only when it names the expected commit. */
  function AfterRefStep(w: World, a: nat, s: Step): World
    requires a in w.attempts
  {
    var t := w.attempts[a];
    match s
    case CheckClean => if w.present && !w.dirty then Goto(w, a, SawClean) else Gone(w, a)
    case CheckHead => if w.present && w.head == t.expected then Goto(w, a, SawHead) else Gone(w, a)
    case ReadRef => if w.safety.Some? then Goto(w, a, RefFound(w.safety.value)) else Goto(w, a, RefMissing)
    case CompareRef =>
      if t.pc.RefFound? && t.pc.existing == t.expected then Goto(w, a, RefHeld) else Gone(w, a)
    case CreateRef =>
      if w.safety.None? then Goto(w, a, RefHeld).(safety := Some(t.expected)) else Goto(w, a, CreateFailed)
    case ReadRaced => if w.safety == Some(t.expected) then Goto(w, a, RefHeld) else Gone(w, a)
    case VerifyRef => if w.safety == Some(t.expected) then Goto(w, a, Anchored) else Gone(w, a)
    case _ => w
  }

  /** Removing the tree takes its lock file away with it. */
  function AfterRemove(w: World, a: nat): World
    requires a in w.attempts
  {
    var t := w.attempts[a];
    if w.present && !w.dirty then
      var gone := DropLock(Goto(w, a, Leaving(true)), Some(a)).(present := false);
      gone.(removals := w.removals + [Removal(a, w.head, w.dirty, t.expected, w.safety, a in w.robbed)])
    else Goto(w, a, Leaving(false))
  }

  /** The locked part. A lock that is already there ends the attempt, or an error in opening it or
      in git later on; but the final unlink still runs and removes the lock, whoever's it is. */
  function AfterLockStep(w: World, a: nat, s: Step): World
    requires a in w.attempts
  {
    var t := w.attempts[a];
    match s
    case SkipMissing => Gone(w, a).(cleaned := true)
    case OpenLock =>
      if w.lock.Some? then Goto(w, a, Leaving(false)) else Goto(w, a, Locked).(lock := Some(ByAttempt(a)))
    case FailToOpen => Goto(w, a, Leaving(false))
    case FailLocked => Goto(w, a, Leaving(false))
    case FailToPrune => Goto(w, a, Leaving(false))
    case CheckCleanLocked => Goto(w, a, if w.present && !w.dirty then LockedClean else Leaving(false))
    case CheckHeadLocked => Goto(w, a, if w.present && w.head == t.expected then LockedMatch else Leaving(false))
    case RemoveTree => AfterRemove(w, a)
    case GiveUp => Gone(w, a)
    case Unlink =>
      Gone(DropLock(w, Some(a)), a).(cleaned := w.cleaned || t.pc == Leaving(true))
    case _ => w
  }

  predicate IsRefStep(s: Step) {
    s.CheckClean? || s.CheckHead? || s.ReadRef? || s.CompareRef? || s.CreateRef? || s.ReadRaced? || s.VerifyRef?
  }

  function AfterStep(w: World, a: nat, s: Step): World
    requires a in w.attempts
  {
    if IsRefStep(s) then AfterRefStep(w, a, s) else AfterLockStep(w, a, s)
  }

  predicate Enabled(w: World, e: Event) {
    match e
    case Begin(a, _) => a !in w.used
    case By(a, s) => a in w.attempts && StepEnabled(w, a, s)
    case Crash(a) => a in w.attempts
    case Edit => w.present
    case OutsideLock(o) => w.present && w.lock.None? && o !in w.believers
    case OutsideCommit(o, _, _) => o in w.believers && w.lock.Some?
    case OutsideAbort(o) => o in w.believers
  }

  /** An outside commit renames the lock file that is there over HEAD. */
  function Apply(w: World, e: Event): World
    requires Enabled(w, e)
  {
    match e
    case Begin(a, expected) => w.(attempts := w.attempts[a := Attempt(expected, Fresh)], used := w.used + {a})
    case By(a, s) => AfterStep(w, a, s)
    case Crash(a) => Gone(w, a)
    case Edit => w.(dirty := true)
    case OutsideLock(o) => w.(lock := Some(ByOutside(o)), believers := w.believers + {o})
    case OutsideCommit(o, sha, leavesDirty) =>
      DropLock(w, None).(head := sha, dirty := leavesDirty, believers := w.believers - {o})
    case OutsideAbort(o) => DropLock(w, None).(believers := w.believers - {o})
  }

  predicate Init(w: World) {
    && w.present && w.lock == None && !w.cleaned && w.attempts == map[] && w.used == {} && w.believers == {}
    && w.robbed == {} && w.removals == []
  }

  ghost predicate StepsTo(w: World, e: Event, w': World) {
    Enabled(w, e) && w' == Apply(w, e)
  }

  ghost predicate IsRun(ws: seq<World>, es: seq<Event>) {
    && |ws| == |es| + 1 && Init(ws[0])
    && forall k {:trigger es[k]} | 0 <= k < |es| :: StepsTo(ws[k], es[k], ws[k + 1])
  }

  // ----- What every run keeps -----

  /** What an attempt knows at each point; the lock only counts while it was not taken away. */
  ghost predicate AttemptOk(w: World, a: nat, t: Attempt) {
    && a in w.used
    && (t.pc.RefFound? ==> w.safety == Some(t.pc.existing))
    && (t.pc == RefHeld || t.pc == Anchored || HoldsLock(t.pc) ==> w.safety == Some(t.expected))
    && (HoldsLock(t.pc) && a !in w.robbed ==> w.lock == Some(ByAttempt(a)))
    && (t.pc == LockedMatch && a !in w.robbed ==> w.head == t.expected)
  }

  /** The safety ref named the expected commit, and so did HEAD unless the lock had been taken away. */
  ghost predicate RemovalOk(r: Removal) {
    r.safety == Some(r.expected) && !r.dirty && (!r.robbed ==> r.head == r.expected)
  }

  ghost predicate Safe(w: World) {
    && (forall a | a in w.attempts :: AttemptOk(w, a, w.attempts[a]))
    && (forall k | 0 <= k < |w.removals| :: RemovalOk(w.removals[k]))
    && (w.robbed <= w.used)
    && (w.lock.Some? && w.lock.value.ByAttempt? ==> w.lock.value.attempt in w.used)
  }

  ghost predicate RefKept(w: World, w': World) {
    w.safety.Some? ==> w'.safety == w.safety
  }

  /** An event that leaves the other attempts what they know. */
  lemma {:induction false} OthersKeep(w: World, w': World, a: int)
    requires Safe(w) && RefKept(w, w') && w.robbed <= w'.robbed && w.used <= w'.used && w'.robbed <= w'.used
    requires forall b | b in w'.attempts && b != a :: b in w.attempts && w'.attempts[b] == w.attempts[b]
    requires a >= 0 && a in w'.attempts ==> AttemptOk(w', a, w'.attempts[a])
    requires forall b {:trigger ByAttempt(b)} | b != a && w.lock == Some(ByAttempt(b)) && b !in w'.robbed ::
      w'.lock == w.lock && w'.head == w.head
    requires w'.lock.Some? && w'.lock.value.ByAttempt? ==> w'.lock.value.attempt in w'.used
    requires forall k | 0 <= k < |w'.removals| :: RemovalOk(w'.removals[k])
    ensures Safe(w')
  {
  }

  lemma {:induction false} GotoKeeps(w: World, a: nat, pc: Pc)
    requires Safe(w) && a in w.attempts && AttemptOk(w, a, w.attempts[a].(pc := pc))
    ensures Safe(Goto(w, a, pc))
  {
  }

  lemma {:induction false} GoneKeeps(w: World, a: nat)
    requires Safe(w) && a in w.attempts
    ensures Safe(Gone(w, a))
  {
  }

  lemma {:induction false} CreateRefKeeps(w: World, a: nat)
    requires Safe(w) && a in w.attempts && w.safety.None?
    ensures Safe(Goto(w, a, RefHeld).(safety := Some(w.attempts[a].expected)))
  {
  }

  lemma {:induction false} RefStepKeeps(w: World, a: nat, s: Step)
    requires Safe(w) && a in w.attempts && StepEnabled(w, a, s) && IsRefStep(s)
    ensures Safe(AfterRefStep(w, a, s)) && RefKept(w, AfterRefStep(w, a, s))
  {
    assert AttemptOk(w, a, w.attempts[a]);
    GoneKeeps(w, a);
    match s {
      case CheckClean => GotoKeeps(w, a, SawClean);
      case CheckHead => GotoKeeps(w, a, SawHead);
      case ReadRef => GotoKeeps(w, a, if w.safety.Some? then RefFound(w.safety.value) else RefMissing);
      case CreateRef =>
        if w.safety.None? {
          CreateRefKeeps(w, a);
        } else {
          GotoKeeps(w, a, CreateFailed);
        }
      case VerifyRef =>
        if w.safety == Some(w.attempts[a].expected) {
          GotoKeeps(w, a, Anchored);
        }
      case CompareRef =>
        if w.attempts[a].pc.existing == w.attempts[a].expected {
          GotoKeeps(w, a, RefHeld);
        }
      case ReadRaced =>
        if w.safety == Some(w.attempts[a].expected) {
          GotoKeeps(w, a, RefHeld);
        }
    }
  }

  lemma {:induction false} RemoveKeeps(w: World, a: nat)
    requires Safe(w) && a in w.attempts && w.attempts[a].pc == LockedMatch
    ensures Safe(AfterRemove(w, a)) && AfterRemove(w, a).safety == w.safety
  {
  }

  lemma {:induction false} OpenLockKeeps(w: World, a: nat)
    requires Safe(w) && a in w.attempts && w.attempts[a].pc == Anchored && w.lock.None?
    ensures Safe(Goto(w, a, Locked).(lock := Some(ByAttempt(a))))
  {
  }

  lemma {:induction false} UnlinkKeeps(w: World, a: nat, cleaned: bool)
    requires Safe(w) && a in w.attempts && w.attempts[a].pc.Leaving?
    ensures Safe(Gone(DropLock(w, Some(a)), a).(cleaned := cleaned))
  {
  }

  lemma {:induction false} LockStepKeeps(w: World, a: nat, s: Step)
    requires Safe(w) && a in w.attempts && StepEnabled(w, a, s) && !IsRefStep(s)
    ensures Safe(AfterLockStep(w, a, s)) && RefKept(w, AfterLockStep(w, a, s))
  {
    assert AttemptOk(w, a, w.attempts[a]);
    GoneKeeps(w, a);
    GotoKeeps(w, a, Leaving(false));
    match s {
      case OpenLock =>
        if w.lock.None? {
          OpenLockKeeps(w, a);
        }
      case CheckCleanLocked => GotoKeeps(w, a, LockedClean);
      case CheckHeadLocked =>
        if w.head == w.attempts[a].expected {
          GotoKeeps(w, a, LockedMatch);
        }
      case RemoveTree => RemoveKeeps(w, a);
      case Unlink => UnlinkKeeps(w, a, w.cleaned || w.attempts[a].pc == Leaving(true));
      case _ =>
    }
  }

  lemma {:induction false} StepKeepsSafe(w: World, e: Event)
    requires Safe(w) && Enabled(w, e)
    ensures Safe(Apply(w, e)) && RefKept(w, Apply(w, e))
  {
    match e {
      case By(a, s) =>
        if IsRefStep(s) {
          RefStepKeeps(w, a, s);
        } else {
          LockStepKeeps(w, a, s);
        }
      case Begin(a, _) => OthersKeep(w, Apply(w, e), a);
      case Crash(a) => OthersKeep(w, Apply(w, e), a);
      case _ =>
        OthersKeep(w, Apply(w, e), -1);
    }
  }

  lemma {:induction false} RunSafe(ws: seq<World>, es: seq<Event>, k: nat)
    requires IsRun(ws, es) && k < |ws|
    ensures Safe(ws[k])
  {
    if k > 0 {
      RunSafe(ws, es, k - 1);
      assert StepsTo(ws[k - 1], es[k - 1], ws[k]);
      StepKeepsSafe(ws[k - 1], es[k - 1]);
    }
  }

  /** A safety ref, once there, is never moved by any collection. */
  lemma {:induction false} SafetyRefNeverMoves(ws: seq<World>, es: seq<Event>, j: nat, k: nat)
    requires IsRun(ws, es) && j <= k < |ws| && ws[j].safety.Some?
    ensures ws[k].safety == ws[j].safety
    decreases k - j
  {
    if j < k {
      SafetyRefNeverMoves(ws, es, j, k - 1);
      RunSafe(ws, es, k - 1);
      assert StepsTo(ws[k - 1], es[k - 1], ws[k]);
      StepKeepsSafe(ws[k - 1], es[k - 1]);
    }
  }

  /** Whatever else happens, a worktree is removed only when it is clean and a ref holds the
      expected commit; and its HEAD is that commit unless the remover's lock was taken away. */
  lemma {:induction false} RemovalsLoseNoCommit(ws: seq<World>, es: seq<Event>, k: nat, r: Removal)
    requires IsRun(ws, es) && k < |ws| && r in ws[k].removals
    ensures r.safety == Some(r.expected) && !r.dirty
    ensures !r.robbed ==> r.head == r.expected
  {
    RunSafe(ws, es, k);
    var i :| 0 <= i < |ws[k].removals| && ws[k].removals[i] == r;
    assert RemovalOk(ws[k].removals[i]);
  }

  // ----- What each event changes, and what changes by which event -----

  /** The worktree goes by a removal that finds it clean. */
  predicate Removes(w: World, e: Event) {
    e.By? && e.step == RemoveTree && w.present && !w.dirty
  }

  ghost predicate ChangesTree(w: World, e: Event, w': World) {
    && (w'.present <==> w.present && !Removes(w, e))
    && w'.head == (if e.OutsideCommit? then e.sha else w.head)
    && (w'.dirty <==> if e.OutsideCommit? then e.leavesDirty else e == Edit || w.dirty)
  }

  /** The safety ref is created where there is none, naming what the attempt expects. */
  ghost predicate ChangesRef(w: World, e: Event, w': World) {
    w'.safety ==
      if e.By? && e.step == CreateRef && w.safety.None? && e.a in w.attempts
      then Some(w.attempts[e.a].expected) else w.safety
  }

  /** The lock is taken only when there is none; an unlink, a removal or the end of an outside operation
      takes away whatever lock is there. */
  ghost predicate ChangesLock(w: World, e: Event, w': World) {
    w'.lock ==
      match e
      case By(a, OpenLock) => if w.lock.None? then Some(ByAttempt(a)) else w.lock
      case By(_, Unlink) => None
      case By(_, RemoveTree) => if Removes(w, e) then None else w.lock
      case OutsideLock(o) => Some(ByOutside(o))
      case OutsideCommit(_, _, _) => None
      case OutsideAbort(_) => None
      case _ => w.lock
  }

  /** The task counts as cleaned after the unlink that follows a removal, or when its worktree was gone. */
  ghost predicate ChangesRecord(w: World, e: Event, w': World) {
    && (w'.cleaned <==>
          || w.cleaned || (e.By? && e.step == SkipMissing)
          || (e.By? && e.step == Unlink && e.a in w.attempts && w.attempts[e.a].pc == Leaving(true)))
    && w'.removals ==
         if Removes(w, e) && e.a in w.attempts
         then w.removals + [Removal(e.a, w.head, false, w.attempts[e.a].expected, w.safety, e.a in w.robbed)]
         else w.removals
  }

  /** What must hold for the attempt's step to succeed. */
  predicate Succeeds(w: World, a: nat, s: Step)
    requires a in w.attempts
  {
    var t := w.attempts[a];
    match s
    case CheckClean | CheckCleanLocked | RemoveTree => w.present && !w.dirty
    case CheckHead | CheckHeadLocked => w.present && w.head == t.expected
    case CompareRef => t.pc == RefFound(t.expected)
    case ReadRaced | VerifyRef => w.safety == Some(t.expected)
    case CreateRef => w.safety.None?
    case OpenLock => w.lock.None?
    case _ => false
  }

  /** Where the attempt goes: before the lock it gives up at once, later on it leaves by the unlink. */
  function GoesTo(w: World, a: nat, s: Step): Option<Pc>
    requires a in w.attempts
  {
    var ok := Succeeds(w, a, s);
    match s
    case CheckClean => if ok then Some(SawClean) else None
    case CheckHead => if ok then Some(SawHead) else None
    case ReadRef => Some(if w.safety.Some? then RefFound(w.safety.value) else RefMissing)
    case CompareRef | ReadRaced => if ok then Some(RefHeld) else None
    case CreateRef => Some(if ok then RefHeld else CreateFailed)
    case VerifyRef => if ok then Some(Anchored) else None
    case OpenLock => Some(if ok then Locked else Leaving(false))
    case CheckCleanLocked => Some(if ok then LockedClean else Leaving(false))
    case CheckHeadLocked => Some(if ok then LockedMatch else Leaving(false))
    case RemoveTree => Some(Leaving(ok))
    case FailToOpen | FailLocked | FailToPrune => Some(Leaving(false))
    case SkipMissing | GiveUp | Unlink => None
  }

  /** Only the attempt that makes a step moves; one begins at the start and a crash ends it. */
  ghost predicate ChangesAttempts(w: World, e: Event, w': World) {
    && w'.used == (if e.Begin? then w.used + {e.a} else w.used)
    && match e
       case Begin(a, expected) => w'.attempts == w.attempts[a := Attempt(expected, Fresh)]
       case Crash(a) => w'.attempts == w.attempts - {a}
       case By(a, s) =>
         && a in w.attempts
         && w'.attempts ==
              if GoesTo(w, a, s).Some? then w.attempts[a := w.attempts[a].(pc := GoesTo(w, a, s).value)]
              else w.attempts - {a}
       case _ => w'.attempts == w.attempts
  }

  ghost predicate ChangesBelievers(w: World, e: Event, w': World) {
    w'.believers ==
      match e
      case OutsideLock(o) => w.believers + {o}
      case OutsideCommit(o, _, _) => w.believers - {o}
      case OutsideAbort(o) => w.believers - {o}
      case _ => w.believers
  }

  ghost predicate Changes(w: World, e: Event, w': World) {
    && ChangesTree(w, e, w') && ChangesRef(w, e, w') && ChangesLock(w, e, w') && ChangesRecord(w, e, w')
    && ChangesAttempts(w, e, w') && ChangesBelievers(w, e, w')
  }

  lemma {:induction false} RefStepChanges(w: World, a: nat, s: Step)
    requires Enabled(w, By(a, s)) && IsRefStep(s)
    ensures Changes(w, By(a, s), AfterRefStep(w, a, s))
  {
    match s {
      case CreateRef =>
      case _ =>
    }
  }

  lemma {:induction false} LockStepChanges(w: World, a: nat, s: Step)
    requires Enabled(w, By(a, s)) && !IsRefStep(s)
    ensures Changes(w, By(a, s), AfterLockStep(w, a, s))
  {
    match s {
      case RemoveTree =>
      case Unlink =>
      case _ =>
    }
  }

  /** Each event changes just this. */
  lemma {:induction false} ChangesExactly(w: World, e: Event)
    requires Enabled(w, e)
    ensures Changes(w, e, Apply(w, e))
  {
    match e {
      case By(a, s) =>
        if IsRefStep(s) {
          RefStepChanges(w, a, s);
        } else {
          LockStepChanges(w, a, s);
        }
      case _ =>
    }
  }

  /** What an attempt can do next: go on to the next point, or out. */
  ghost function Choices(pc: Pc, present: bool): set<Step> {
    match pc
    case Fresh => {CheckClean, GiveUp}
    case SawClean => {CheckHead, GiveUp}
    case SawHead => {ReadRef, GiveUp}
    case RefMissing => {CreateRef, GiveUp}
    case RefFound(_) => {CompareRef, GiveUp}
    case CreateFailed => {ReadRaced, GiveUp}
    case RefHeld => {VerifyRef, GiveUp}
    case Anchored => if present then {OpenLock, FailToOpen, GiveUp} else {SkipMissing, GiveUp}
    case Locked => {CheckCleanLocked, FailLocked}
    case LockedClean => {CheckHeadLocked, FailLocked}
    case LockedMatch => {RemoveTree, FailLocked}
    case Leaving(removed) => {Unlink} + (if removed then {FailToPrune} else {})
  }

  /** An attempt makes its steps in this order and no other. */
  lemma {:induction false} ChoicesExactly(w: World, a: nat, s: Step)
    requires a in w.attempts
    ensures Enabled(w, By(a, s)) <==> s in Choices(w.attempts[a].pc, w.present)
  {
  }

  // ----- When no lock is taken away -----

  /** An attempt does not get the lock, because one is already there or for another error. */
  predicate MissesLock(w: World, e: Event) {
    e.By? && (e.step == FailToOpen || (e.step == OpenLock && w.lock.Some?))
  }

  /** That is, exactly when it leaves although its commit is kept and its worktree is there. */
  lemma {:induction false} MissesExactly(w: World, e: Event)
    requires Enabled(w, e)
    ensures
      MissesLock(w, e) <==>
      && e.By? && w.attempts[e.a].pc == Anchored
      && e.a in Apply(w, e).attempts && Apply(w, e).attempts[e.a].pc == Leaving(false)
  {
  }

  ghost predicate InOrder(w: World) {
    && w.robbed == {}
    && (forall o | o in w.believers :: w.lock == Some(ByOutside(o)) || !w.present)
    && (forall a | a in w.attempts :: AttemptInOrder(w, a, w.attempts[a].pc))
    && (!w.present ==> w.lock == None)
    && (forall k | 0 <= k < |w.removals| :: !w.removals[k].robbed)
  }

  /** What an orderly world says about one attempt. */
  ghost predicate AttemptInOrder(w: World, a: nat, pc: Pc) {
    && (HoldsLock(pc) ==> w.lock == Some(ByAttempt(a)))
    && (pc == Leaving(false) ==> w.lock == Some(ByAttempt(a)) || !w.present)
    && (pc == Leaving(true) ==> !w.present)
  }

  lemma {:induction false} GotoInOrder(w: World, a: nat, pc: Pc)
    requires InOrder(w) && a in w.attempts && AttemptInOrder(w, a, pc)
    ensures InOrder(Goto(w, a, pc))
  {
  }

  lemma {:induction false} RemoveInOrder(w: World, a: nat)
    requires InOrder(w) && a in w.attempts && w.attempts[a].pc == LockedMatch
    ensures InOrder(AfterRemove(w, a))
  {
  }

  lemma {:induction false} RefStepKeepsOrder(w: World, a: nat, s: Step)
    requires InOrder(w) && a in w.attempts && StepEnabled(w, a, s) && IsRefStep(s)
    ensures InOrder(AfterRefStep(w, a, s))
  {
    match s {
      case CheckClean => GotoInOrder(w, a, SawClean);
      case CheckHead => GotoInOrder(w, a, SawHead);
      case ReadRef => GotoInOrder(w, a, if w.safety.Some? then RefFound(w.safety.value) else RefMissing);
      case CompareRef => GotoInOrder(w, a, RefHeld);
      case CreateRef =>
        GotoInOrder(w, a, RefHeld);
        GotoInOrder(w, a, CreateFailed);
      case ReadRaced => GotoInOrder(w, a, RefHeld);
      case VerifyRef => GotoInOrder(w, a, Anchored);
    }
  }

  lemma {:induction false} LockStepKeepsOrder(w: World, a: nat, s: Step)
    requires InOrder(w) && a in w.attempts && StepEnabled(w, a, s) && !IsRefStep(s) && !MissesLock(w, By(a, s))
    ensures InOrder(AfterLockStep(w, a, s))
  {
    assert AttemptInOrder(w, a, w.attempts[a].pc);
    match s {
      case CheckCleanLocked => GotoInOrder(w, a, if w.present && !w.dirty then LockedClean else Leaving(false));
      case CheckHeadLocked =>
        GotoInOrder(w, a, if w.present && w.head == w.attempts[a].expected then LockedMatch else Leaving(false));
      case RemoveTree => RemoveInOrder(w, a);
      case _ =>
    }
  }

  lemma {:induction false} EventKeepsOrder(w: World, e: Event)
    requires InOrder(w) && Enabled(w, e) && !MissesLock(w, e)
    ensures InOrder(Apply(w, e))
  {
    if e.By? && IsRefStep(e.step) {
      RefStepKeepsOrder(w, e.a, e.step);
    } else if e.By? {
      LockStepKeepsOrder(w, e.a, e.step);
    }
  }

  /** As long as every attempt gets the lock it asks for, nobody's lock is ever taken away. */
  lemma {:induction false} NoContentionNoRobbery(ws: seq<World>, es: seq<Event>, k: nat)
    requires IsRun(ws, es) && k < |ws|
    requires forall i {:trigger es[i]} | 0 <= i < k :: !MissesLock(ws[i], es[i])
    ensures InOrder(ws[k])
  {
    if k > 0 {
      NoContentionNoRobbery(ws, es, k - 1);
      RunSafe(ws, es, k - 1);
      assert StepsTo(ws[k - 1], es[k - 1], ws[k]);
      EventKeepsOrder(ws[k - 1], es[k - 1]);
    }
  }

  /** So, while every attempt gets its lock, every worktree removed had exactly the expected
      commit checked out, and that commit is kept by the safety ref. */
  lemma {:induction false} QuietCollectionLosesNothing(ws: seq<World>, es: seq<Event>, k: nat, r: Removal)
    requires IsRun(ws, es) && k < |ws| && r in ws[k].removals
    requires forall i {:trigger es[i]} | 0 <= i < k :: !MissesLock(ws[i], es[i])
    ensures r.head == r.expected && r.safety == Some(r.expected) && !r.dirty
  {
    NoContentionNoRobbery(ws, es, k);
    RemovalsLoseNoCommit(ws, es, k, r);
    var i :| 0 <= i < |ws[k].removals| && ws[k].removals[i] == r;
    assert !ws[k].removals[i].robbed;
  }

  // ----- And when one is -----

  /** The lock is the attempt's own, and the event takes it away: the unlink or the removal of
      another attempt, or an outside operation that believes the lock to be its own. */
  predicate Robs(w: World, e: Event, a: nat) {
    && w.lock == Some(ByAttempt(a))
    && match e
       case By(b, s) => b != a && (s == Unlink || (s == RemoveTree && w.present && !w.dirty))
       case OutsideCommit(_, _, _) => true
       case OutsideAbort(_) => true
       case _ => false
  }

  lemma {:induction false} RefStepRobsNobody(w: World, b: nat, s: Step)
    requires b in w.attempts && IsRefStep(s)
    ensures AfterRefStep(w, b, s).robbed == w.robbed
  {
  }

  lemma {:induction false} RobbedByLockStep(w: World, b: nat, s: Step, a: nat)
    requires b in w.attempts && StepEnabled(w, b, s) && !IsRefStep(s)
    ensures a in AfterLockStep(w, b, s).robbed <==> a in w.robbed || Robs(w, By(b, s), a)
  {
  }

  lemma {:induction false} RobbedByStep(w: World, e: Event, a: nat)
    requires Enabled(w, e)
    ensures a in Apply(w, e).robbed <==> a in w.robbed || Robs(w, e, a)
  {
    if e.By? && IsRefStep(e.step) {
      RefStepRobsNobody(w, e.a, e.step);
    } else if e.By? {
      RobbedByLockStep(w, e.a, e.step, a);
    }
  }

  ghost predicate WasRobbed(ws: seq<World>, es: seq<Event>, k: nat, a: nat)
    requires k <= |es| && k < |ws|
  {
    exists j {:trigger es[j]} :: 0 <= j < k && Robs(ws[j], es[j], a)
  }

  lemma {:induction false} RobbedAfter(ws: seq<World>, es: seq<Event>, k: nat, a: nat)
    requires IsRun(ws, es) && k < |es|
    ensures a in ws[k + 1].robbed <==> a in ws[k].robbed || Robs(ws[k], es[k], a)
  {
    assert StepsTo(ws[k], es[k], ws[k + 1]);
    RobbedByStep(ws[k], es[k], a);
  }

  /** An attempt counts as robbed exactly when one of these events has found its lock. */
  lemma {:induction false} RobbedExactly(ws: seq<World>, es: seq<Event>, k: nat, a: nat)
    requires IsRun(ws, es) && k < |ws|
    ensures a in ws[k].robbed <==> WasRobbed(ws, es, k, a)
  {
    if k > 0 {
      RobbedExactly(ws, es, k - 1, a);
      RobbedAfter(ws, es, k - 1, a);
    }
  }

  ghost predicate EndsIn(ws: seq<World>, es: seq<Event>, w: World) {
    IsRun(ws, es) && ws[|es|] == w
  }

  ghost predicate Reachable(w: World) {
    exists ws, es :: EndsIn(ws, es, w)
  }

  lemma {:induction false} ReachNext(w: World, e: Event)
    requires Reachable(w) && Enabled(w, e)
    ensures Reachable(Apply(w, e))
  {
    var ws, es :| EndsIn(ws, es, w);
    var vs, fs := ws + [Apply(w, e)], es + [e];
    forall k | 0 <= k < |fs| ensures StepsTo(vs[k], fs[k], vs[k + 1]) {
      if k < |es| {
        assert StepsTo(ws[k], es[k], ws[k + 1]);
      }
    }
    assert EndsIn(vs, fs, Apply(w, e));
  }

  lemma {:induction false} ReachStart(w: World)
    requires Init(w)
    ensures Reachable(w)
  {
    assert EndsIn([w], [], w);
  }

  /** A world with one worktree on commit `h`. */
  function Around(h: string, lock: Option<Holder>, safety: Option<string>, attempts: map<nat, Attempt>,
                  used: set<nat>, robbed: set<nat>): World
  {
    World(true, h, false, lock, safety, false, attempts, used, {}, robbed, [])
  }

  lemma {:induction false} FirstAttemptLocks(h: string)
    ensures Reachable(Around(h, Some(ByAttempt(0)), Some(h), map[0 := Attempt(h, LockedMatch)], {0}, {}))
  {
    var w := Around(h, None, None, map[], {}, {});
    ReachStart(w);
    var es := [Begin(0, h), By(0, CheckClean), By(0, CheckHead), By(0, ReadRef), By(0, CreateRef), By(0, VerifyRef),
               By(0, OpenLock), By(0, CheckCleanLocked), By(0, CheckHeadLocked)];
    var pcs := [Fresh, SawClean, SawHead, RefMissing, RefHeld, Anchored, Locked, LockedClean, LockedMatch];
    var i := 0;
    while i < |es|
      invariant 0 <= i <= |es| && Reachable(w)
      invariant i == 0 ==> w == Around(h, None, None, map[], {}, {})
      invariant i > 0 ==>
        w == Around(h, if i > 6 then Some(ByAttempt(0)) else None, if i > 4 then Some(h) else None,
                    map[0 := Attempt(h, pcs[i - 1])], {0}, {})
    {
      assert Enabled(w, es[i]);
      ReachNext(w, es[i]);
      w := Apply(w, es[i]);
      i := i + 1;
    }
  }

  lemma {:induction false} SecondAttemptMeetsLock(h: string)
    ensures Reachable(Around(h, Some(ByAttempt(0)), Some(h),
                             map[0 := Attempt(h, LockedMatch), 1 := Attempt(h, Leaving(false))], {0, 1}, {}))
  {
    var w := Around(h, Some(ByAttempt(0)), Some(h), map[0 := Attempt(h, LockedMatch)], {0}, {});
    FirstAttemptLocks(h);
    var es := [Begin(1, h), By(1, CheckClean), By(1, CheckHead), By(1, ReadRef), By(1, CompareRef), By(1, VerifyRef),
               By(1, OpenLock)];
    var pcs := [Fresh, SawClean, SawHead, RefFound(h), RefHeld, Anchored, Leaving(false)];
    var i := 0;
    while i < |es|
      invariant 0 <= i <= |es| && Reachable(w)
      invariant i == 0 ==> w == Around(h, Some(ByAttempt(0)), Some(h), map[0 := Attempt(h, LockedMatch)], {0}, {})
      invariant i > 0 ==>
        w == Around(h, Some(ByAttempt(0)), Some(h),
                    map[0 := Attempt(h, LockedMatch), 1 := Attempt(h, pcs[i - 1])], {0, 1}, {})
    {
      assert Enabled(w, es[i]);
      ReachNext(w, es[i]);
      w := Apply(w, es[i]);
      i := i + 1;
    }
  }

  lemma {:induction false} SecondAttemptUnlinks(h: string)
    ensures Reachable(Around(h, None, Some(h), map[0 := Attempt(h, LockedMatch)], {0, 1}, {0}))
  {
    var both := map[0 := Attempt(h, LockedMatch), 1 := Attempt(h, Leaving(false))];
    var w := Around(h, Some(ByAttempt(0)), Some(h), both, {0, 1}, {});
    SecondAttemptMeetsLock(h);
    ReachNext(w, By(1, Unlink));
    assert both - {1} == map[0 := Attempt(h, LockedMatch)];
    assert Apply(w, By(1, Unlink)) == Around(h, None, Some(h), both - {1}, {0, 1}, {0});
  }

  /** The unlink after a failed attempt costs a commit: with its lock gone, the first attempt
      removes a worktree whose HEAD has moved on to a commit nothing else keeps. */
  lemma {:induction false} MeetingALockCanLoseACommit(h: string, n: string) returns (w: World)
    requires h != n
    ensures Reachable(w) && w.removals == [Removal(0, n, false, h, Some(h), true)]
    ensures w.safety == Some(h) && !w.present
  {
    w := Around(h, None, Some(h), map[0 := Attempt(h, LockedMatch)], {0, 1}, {0});
    SecondAttemptUnlinks(h);
    ReachNext(w, OutsideLock(7));
    w := Apply(w, OutsideLock(7));
    ReachNext(w, OutsideCommit(7, n, false));
    w := Apply(w, OutsideCommit(7, n, false));
    ReachNext(w, By(0, RemoveTree));
    w := Apply(w, By(0, RemoveTree));
  }
}
