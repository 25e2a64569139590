/** One collection attempt that nothing interferes with does what the cleanup of a task does. */
module GcAlone {
  import opened Base
  import opened GcRuns
  import E = GcEligibility
  import T = Task

  /** What an attempt does next when neither it nor git fails. */
  function NextStep(w: World, a: nat): Step
    requires a in w.attempts
  {
    match w.attempts[a].pc
    case Fresh => CheckClean
    case SawClean => CheckHead
    case SawHead => ReadRef
    case RefMissing => CreateRef
    case RefFound(_) => CompareRef
    case CreateFailed => ReadRaced
    case RefHeld => VerifyRef
    case Anchored => if w.present then OpenLock else SkipMissing
    case Locked => CheckCleanLocked
    case LockedClean => CheckHeadLocked
    case LockedMatch => RemoveTree
    case Leaving(_) => Unlink
  }

  /** At most `n` steps of the attempt, one after the other. */
  function Alone(w: World, a: nat, n: nat): World
    decreases n
  {
    if n == 0 || a !in w.attempts then w else Alone(AfterStep(w, a, NextStep(w, a)), a, n - 1)
  }

  lemma {:induction false} StepsAreEnabled(w: World, a: nat)
    requires a in w.attempts
    ensures Enabled(w, By(a, NextStep(w, a)))
  {
  }

  /** So whatever an undisturbed attempt comes to can come about in a run. */
  lemma {:induction false} AloneIsReachable(w: World, a: nat, n: nat)
    requires Reachable(w)
    ensures Reachable(Alone(w, a, n))
    decreases n
  {
    if n > 0 && a in w.attempts {
      StepsAreEnabled(w, a);
      ReachNext(w, By(a, NextStep(w, a)));
      AloneIsReachable(Apply(w, By(a, NextStep(w, a))), a, n - 1);
    }
  }

  /** The attempt is at `pc`; only the safety ref and the lock may have changed since `w`. */
  function Mid(w: World, a: nat, pc: Pc, safety: Option<string>, lock: Option<Holder>): World
    requires a in w.attempts
  {
    Goto(w, a, pc).(safety := safety, lock := lock)
  }

  /** The next step takes the attempt from `pc` to `pc'`. */
  ghost predicate Moves(
    w: World, a: nat, pc: Pc, safety: Option<string>, lock: Option<Holder>,
    pc': Pc, safety': Option<string>, lock': Option<Holder>)
    requires a in w.attempts
  {
    var m := Mid(w, a, pc, safety, lock);
    AfterStep(m, a, NextStep(m, a)) == Mid(w, a, pc', safety', lock')
  }

  lemma {:induction false} GoesOn(
    w: World, a: nat, pc: Pc, safety: Option<string>, lock: Option<Holder>,
    pc': Pc, safety': Option<string>, lock': Option<Holder>, n: nat)
    requires a in w.attempts && Moves(w, a, pc, safety, lock, pc', safety', lock')
    ensures Alone(Mid(w, a, pc, safety, lock), a, n + 1) == Alone(Mid(w, a, pc', safety', lock'), a, n)
  {
  }

  lemma {:induction false} GotoTwice(w: World, a: nat, pc: Pc, safety: Option<string>, lock: Option<Holder>, pc': Pc)
    requires a in w.attempts
    ensures Goto(Mid(w, a, pc, safety, lock), a, pc') == Mid(w, a, pc', safety, lock)
  {
    var t := w.attempts[a];
    assert w.attempts[a := t.(pc := pc)][a := t.(pc := pc')] == w.attempts[a := t.(pc := pc')];
  }

  /** The worktree is as the attempt expects it. */
  predicate AsExpected(w: World, a: nat)
    requires a in w.attempts
  {
    w.present && !w.dirty && w.head == w.attempts[a].expected
  }

  lemma {:induction false} OpensLock(w: World, a: nat, safety: Option<string>)
    requires a in w.attempts && AsExpected(w, a)
    ensures Moves(w, a, Anchored, safety, None, Locked, safety, Some(ByAttempt(a)))
  {
    GotoTwice(w, a, Anchored, safety, None, Locked);
  }

  lemma {:induction false} ChecksLocked(w: World, a: nat, safety: Option<string>, lock: Option<Holder>)
    requires a in w.attempts && AsExpected(w, a)
    ensures Moves(w, a, Locked, safety, lock, LockedClean, safety, lock)
    ensures Moves(w, a, LockedClean, safety, lock, LockedMatch, safety, lock)
  {
    GotoTwice(w, a, Locked, safety, lock, LockedClean);
    GotoTwice(w, a, LockedClean, safety, lock, LockedMatch);
  }

  /** From the lock to the removal, nothing else about the world changes. */
  lemma {:induction false} LockedGoesOn(w: World, a: nat, safety: Option<string>, n: nat)
    requires a in w.attempts && AsExpected(w, a)
    ensures Alone(Mid(w, a, Anchored, safety, None), a, n + 3) ==
            Alone(Mid(w, a, LockedMatch, safety, Some(ByAttempt(a))), a, n)
  {
    var mine := Some(ByAttempt(a));
    OpensLock(w, a, safety);
    GoesOn(w, a, Anchored, safety, None, Locked, safety, mine, n + 2);
    ChecksLocked(w, a, safety, mine);
    GoesOn(w, a, Locked, safety, mine, LockedClean, safety, mine, n + 1);
    GoesOn(w, a, LockedClean, safety, mine, LockedMatch, safety, mine, n);
  }

  /** From the first look to the safety ref. */
  lemma {:induction false} ChecksGoOn(w: World, a: nat, safety: Option<string>, lock: Option<Holder>, n: nat)
    requires a in w.attempts && AsExpected(w, a)
    ensures Alone(Mid(w, a, Fresh, safety, lock), a, n + 2) == Alone(Mid(w, a, SawHead, safety, lock), a, n)
  {
    GotoTwice(w, a, Fresh, safety, lock, SawClean);
    GoesOn(w, a, Fresh, safety, lock, SawClean, safety, lock, n + 1);
    GotoTwice(w, a, SawClean, safety, lock, SawHead);
    GoesOn(w, a, SawClean, safety, lock, SawHead, safety, lock, n);
  }

  /** A ref that is free or right is held and verified. */
  lemma {:induction false} RefGoesOn(w: World, a: nat, safety: Option<string>, lock: Option<Holder>, n: nat)
    requires a in w.attempts && (safety.None? || safety.value == w.attempts[a].expected)
    ensures Alone(Mid(w, a, SawHead, safety, lock), a, n + 3) ==
            Alone(Mid(w, a, Anchored, Some(w.attempts[a].expected), lock), a, n)
  {
    var found := if safety.None? then RefMissing else RefFound(safety.value);
    var anchor := Some(w.attempts[a].expected);
    GotoTwice(w, a, SawHead, safety, lock, found);
    GoesOn(w, a, SawHead, safety, lock, found, safety, lock, n + 2);
    GotoTwice(w, a, found, safety, lock, RefHeld);
    GoesOn(w, a, found, safety, lock, RefHeld, anchor, lock, n + 1);
    GotoTwice(w, a, RefHeld, anchor, lock, Anchored);
    GoesOn(w, a, RefHeld, anchor, lock, Anchored, anchor, lock, n);
  }

  /** The attempt is over, the others are where they were, and the rest of the world is as given. */
  ghost predicate Over(
    w: World, a: nat, present: bool, safety: Option<string>, lock: Option<Holder>, cleaned: bool, w': World)
  {
    && w'.attempts == w.attempts - {a} && w'.head == w.head && w'.dirty == w.dirty
    && w'.present == present && w'.safety == safety && w'.lock == lock && w'.cleaned == cleaned
  }

  lemma {:induction false} Leaves(w: World, a: nat, n: nat)
    requires a in w.attempts && w.attempts[a].pc.Leaving?
    ensures
      Over(w, a, w.present, w.safety, None, w.cleaned || w.attempts[a].pc == Leaving(true), Alone(w, a, n + 1))
  {
    assert Alone(w, a, n + 1) == Alone(AfterLockStep(w, a, Unlink), a, n);
  }

  lemma {:induction false} Removes(w: World, a: nat, safety: Option<string>, n: nat)
    requires a in w.attempts && AsExpected(w, a)
    ensures
      Over(w, a, false, safety, None, true, Alone(Mid(w, a, LockedMatch, safety, Some(ByAttempt(a))), a, n + 2))
  {
    var m := Mid(w, a, LockedMatch, safety, Some(ByAttempt(a)));
    var left := AfterRemove(m, a);
    assert left.attempts - {a} == w.attempts - {a};
    Leaves(left, a, n);
  }

  /** A lock that is taken keeps the tree, and is removed itself. */
  lemma {:induction false} MeetsLock(w: World, a: nat, safety: Option<string>, lock: Holder, n: nat)
    requires a in w.attempts && w.present
    ensures Over(w, a, true, safety, None, w.cleaned, Alone(Mid(w, a, Anchored, safety, Some(lock)), a, n + 2))
  {
    GotoTwice(w, a, Anchored, safety, Some(lock), Leaving(false));
    GoesOn(w, a, Anchored, safety, Some(lock), Leaving(false), safety, Some(lock), n + 1);
    var m := Mid(w, a, Leaving(false), safety, Some(lock));
    assert m.attempts - {a} == w.attempts - {a};
    Leaves(m, a, n);
  }

  /** A worktree that is not as expected ends the attempt at once. */
  lemma {:induction false} Refused(w: World, a: nat, n: nat)
    requires a in w.attempts && w.attempts[a].pc == Fresh && !AsExpected(w, a)
    ensures Over(w, a, w.present, w.safety, w.lock, w.cleaned, Alone(w, a, n + 2))
  {
    var w1 := AfterRefStep(w, a, CheckClean);
    if a in w1.attempts {
      var w2 := AfterRefStep(w1, a, CheckHead);
      assert w2.attempts == w.attempts - {a};
      assert Alone(w, a, n + 2) == Alone(w1, a, n + 1) == Alone(w2, a, n);
    }
  }

  /** So does a safety ref that names another commit. */
  lemma {:induction false} Conflicts(w: World, a: nat, safety: string, n: nat)
    requires a in w.attempts && safety != w.attempts[a].expected
    ensures
      Over(w, a, w.present, Some(safety), w.lock, w.cleaned,
           Alone(Mid(w, a, SawHead, Some(safety), w.lock), a, n + 2))
  {
    GotoTwice(w, a, SawHead, Some(safety), w.lock, RefFound(safety));
    GoesOn(w, a, SawHead, Some(safety), w.lock, RefFound(safety), Some(safety), w.lock, n + 1);
    var m := Mid(w, a, RefFound(safety), Some(safety), w.lock);
    var over := AfterRefStep(m, a, CompareRef);
    assert over.attempts == w.attempts - {a};
    assert Alone(m, a, n + 1) == Alone(over, a, n);
  }

  lemma {:induction false} StartsAtMid(w: World, a: nat)
    requires a in w.attempts && w.attempts[a].pc == Fresh
    ensures Mid(w, a, Fresh, w.safety, w.lock) == w
  {
    assert w.attempts[a := w.attempts[a].(pc := Fresh)] == w.attempts;
  }

  /** With its commit kept, the attempt ends as the lock lets it. */
  ghost predicate EndsByLock(w: World, a: nat, safety: Option<string>, w': World) {
    Over(w, a, w.lock.Some?, safety, None, w.cleaned || w.lock.None?, w')
  }

  lemma {:induction false} AnchoredRemoves(w: World, a: nat, safety: Option<string>, n: nat)
    requires a in w.attempts && AsExpected(w, a) && w.lock.None?
    ensures EndsByLock(w, a, safety, Alone(Mid(w, a, Anchored, safety, None), a, n + 5))
  {
    LockedGoesOn(w, a, safety, n + 2);
    Removes(w, a, safety, n);
  }

  lemma {:induction false} AnchoredDecides(w: World, a: nat, safety: Option<string>, n: nat)
    requires a in w.attempts && AsExpected(w, a)
    ensures EndsByLock(w, a, safety, Alone(Mid(w, a, Anchored, safety, w.lock), a, n + 5))
  {
    if w.lock.Some? {
      MeetsLock(w, a, safety, w.lock.value, n + 3);
    } else {
      AnchoredRemoves(w, a, safety, n);
    }
  }

  lemma {:induction false} RefDecides(w: World, a: nat, n: nat)
    requires a in w.attempts && AsExpected(w, a)
    ensures
      var expected, w' := w.attempts[a].expected, Alone(Mid(w, a, SawHead, w.safety, w.lock), a, n + 8);
      if w.safety.Some? && w.safety.value != expected
      then Over(w, a, w.present, w.safety, w.lock, w.cleaned, w')
      else EndsByLock(w, a, Some(expected), w')
  {
    if w.safety.Some? && w.safety.value != w.attempts[a].expected {
      Conflicts(w, a, w.safety.value, n + 6);
    } else {
      RefGoesOn(w, a, w.safety, w.lock, n + 5);
      AnchoredDecides(w, a, Some(w.attempts[a].expected), n);
    }
  }

  lemma {:induction false} ExpectedDecides(w: World, a: nat, n: nat)
    requires a in w.attempts && w.attempts[a].pc == Fresh && AsExpected(w, a)
    ensures Alone(w, a, n + 10) == Alone(Mid(w, a, SawHead, w.safety, w.lock), a, n + 8)
  {
    StartsAtMid(w, a);
    ChecksGoOn(w, a, w.safety, w.lock, n + 8);
  }

  /** An undisturbed attempt is over after ten steps. It changes nothing when the worktree is not as
      expected or the safety ref names another commit; otherwise the ref is there in the end, and the
      worktree is gone exactly when the lock was free, and the lock is gone in any case. */
  lemma {:induction false} AloneDecides(w: World, a: nat, n: nat)
    requires a in w.attempts && w.attempts[a].pc == Fresh && n >= 10
    ensures
      var expected, w' := w.attempts[a].expected, Alone(w, a, n);
      if !AsExpected(w, a) || (w.safety.Some? && w.safety.value != expected)
      then Over(w, a, w.present, w.safety, w.lock, w.cleaned, w')
      else EndsByLock(w, a, Some(expected), w')
  {
    if AsExpected(w, a) {
      ExpectedDecides(w, a, n - 10);
      RefDecides(w, a, n - 10);
    } else {
      Refused(w, a, n - 2);
    }
  }

  // ----- The cleanup of a task -----

  /** The world an attempt at a task's cleanup finds, when nothing else is going on. */
  function WorldOf(e: E.Entry, a: nat): World {
    var f := e.facts;
    World(
      f.present, if f.head.Some? then f.head.value else "", f.changedFiles != Some(0),
      if f.headLocked then Some(ByOutside(0)) else None, f.safety, e.task.cleaned,
      map[a := Attempt(E.ExpectedHead(e.task), Fresh)], {a}, {}, {}, [])
  }

  /** The task may be cleaned up as far as its own record goes, and git can look at its worktree. */
  ghost predicate Reaches(e: E.Entry) {
    && !e.task.cleaned && e.task.status != T.Active && e.task.pending == []
    && (e.task.status == T.Completed ==> E.MetadataRefusal(e.task, e.facts).None?)
    && e.facts.path == E.PathOk && e.facts.present && e.facts.registration == E.Registered
    && e.facts.changedFiles.Some? && e.facts.head.Some?
  }

  /** The steps that other attempts may come between do together just what the cleanup does at once. */
  lemma {:induction false} AloneIsTheCleanup(e: E.Entry, a: nat, n: nat)
    requires Reaches(e) && n >= 10
    ensures
      var w', result, after := Alone(WorldOf(e, a), a, n), E.CleanedUpOr(e.task, e.facts), E.AfterCleanup(e);
      && w'.attempts == map[]
      && (w'.cleaned <==> result.CleanedUp?) && w'.cleaned == after.task.cleaned
      && w'.present == after.facts.present && w'.safety == after.facts.safety
      && (w'.lock.Some? <==> after.facts.headLocked)
  {
    AloneDecides(WorldOf(e, a), a, n);
  }
}
