/** The evidence of a review: which tasks are linked decides it, and in which order does not. */
module WorkflowUnits {
  import opened Base
  import opened Canonical
  import opened Workflow

  ghost predicate Ascending(units: seq<Unit>) {
    forall i, j | 0 <= i < j < |units| :: Less(units[i].task, units[j].task)
  }

  ghost predicate DistinctTasks(units: seq<Unit>) {
    forall i, j | 0 <= i < j < |units| :: units[i].task != units[j].task
  }

  lemma {:induction false} PlacedKeeps(units: seq<Unit>, u: Unit)
    ensures forall v :: v in Placed(units, u) <==> v == u || v in units
  {
    if units != [] && Less(units[0].task, u.task) {
      PlacedKeeps(units[1..], u);
      assert units == [units[0]] + units[1..];
    }
  }

  lemma {:induction false} PlacedAscends(units: seq<Unit>, u: Unit)
    requires Ascending(units) && forall v | v in units :: v.task != u.task
    ensures Ascending(Placed(units, u))
  {
    var placed := Placed(units, u);
    if units != [] {
      LessIsTotal(units[0].task, u.task);
      if Less(units[0].task, u.task) {
        PlacedAscends(units[1..], u);
        PlacedKeeps(units[1..], u);
        forall i, j | 0 <= i < j < |placed| ensures Less(placed[i].task, placed[j].task) {
          if i == 0 {
            assert placed[j] in Placed(units[1..], u);
          }
        }
      } else {
        forall j | 0 < j < |placed| ensures Less(u.task, placed[j].task) {
          if j > 1 {
            LessIsTransitive(u.task, units[0].task, units[j - 1].task);
          }
        }
      }
    }
  }

  lemma {:induction false} SortedKeeps(units: seq<Unit>)
    ensures forall u :: u in SortedByTask(units) <==> u in units
  {
    if units != [] {
      SortedKeeps(units[1..]);
      PlacedKeeps(SortedByTask(units[1..]), units[0]);
      assert units == [units[0]] + units[1..];
    }
  }

  lemma {:induction false} SortedAscends(units: seq<Unit>)
    requires DistinctTasks(units)
    ensures Ascending(SortedByTask(units))
  {
    if units != [] {
      SortedAscends(units[1..]);
      SortedKeeps(units[1..]);
      forall v | v in units[1..] ensures v.task != units[0].task {
        var k :| 0 <= k < |units[1..]| && units[1..][k] == v;
        assert units[k + 1] == v;
      }
      PlacedAscends(SortedByTask(units[1..]), units[0]);
    }
  }

  lemma {:induction false} AscendingFirst(a: seq<Unit>, b: seq<Unit>)
    requires Ascending(a) && Ascending(b) && a != [] && b != []
    requires a[0] in b && b[0] in a
    ensures a[0] == b[0]
  {
    var i :| 0 <= i < |b| && b[i] == a[0];
    var j :| 0 <= j < |a| && a[j] == b[0];
    LessIsTotal(a[0].task, b[0].task);
  }

  /** An ascending sequence is determined by its elements. */
  lemma {:induction false} AscendingUnique(a: seq<Unit>, b: seq<Unit>)
    requires Ascending(a) && Ascending(b) && forall u :: u in a <==> u in b
    ensures a == b
  {
    assert b != [] ==> b[0] in b;
    if a != [] {
      assert a[0] in b;
      assert b[0] in a;
      AscendingFirst(a, b);
      forall u ensures u in a[1..] <==> u in b[1..] {
        TailElements(a, u);
        TailElements(b, u);
      }
      AscendingUnique(a[1..], b[1..]);
    }
  }

  lemma {:induction false} TailElements(a: seq<Unit>, u: Unit)
    requires Ascending(a) && a != []
    ensures u in a[1..] <==> u in a && u != a[0]
  {
    LessIsTotal(a[0].task, a[0].task);
    if u in a[1..] {
      var k :| 0 <= k < |a[1..]| && a[1..][k] == u;
      assert Less(a[0].task, a[k + 1].task);
    }
    assert a == [a[0]] + a[1..];
  }

  /** The units of a list of tasks are those of its members, under their own names. */
  lemma {:induction false} UnitsExactly(ids: seq<string>, tasks: map<string, LinkedTask>, repo: string)
    ensures UnitsOf(ids, tasks, repo).Ok? <==> forall id | id in ids :: UnitOf(id, tasks, repo).Ok?
    ensures UnitsOf(ids, tasks, repo).Ok? ==>
      var units := UnitsOf(ids, tasks, repo).value;
      && |units| == |ids|
      && forall k | 0 <= k < |ids| :: units[k].task == ids[k] && UnitOf(ids[k], tasks, repo) == Ok(units[k])
  {
    if ids != [] {
      UnitsExactly(ids[1..], tasks, repo);
      assert ids == [ids[0]] + ids[1..];
    }
  }

  lemma {:induction false} UnitsAsSet(ids: seq<string>, tasks: map<string, LinkedTask>, repo: string, u: Unit)
    requires UnitsOf(ids, tasks, repo).Ok?
    ensures u in UnitsOf(ids, tasks, repo).value <==> u.task in ids && UnitOf(u.task, tasks, repo) == Ok(u)
  {
    UnitsExactly(ids, tasks, repo);
    var units := UnitsOf(ids, tasks, repo).value;
    if u in units {
      var k :| 0 <= k < |units| && units[k] == u;
      assert ids[k] == u.task;
    } else if u.task in ids {
      var k :| 0 <= k < |ids| && ids[k] == u.task;
      assert units[k] in units;
    }
  }

  lemma {:induction false} CapturedWhenAllAre(w: Workflow, env: Env)
    ensures Captured(w, env).Ok? <==>
      w.taskIds != [] && forall id | id in w.taskIds :: UnitOf(id, env.tasks, w.repo).Ok?
  {
    DeduplicatedKeeps(w.taskIds);
    UnitsExactly(Deduplicated(w.taskIds), env.tasks, w.repo);
    if w.taskIds != [] {
      assert w.taskIds[0] in Deduplicated(w.taskIds);
    }
  }

  lemma {:induction false} CapturedUnits(w: Workflow, env: Env, u: Unit)
    requires Captured(w, env).Ok?
    ensures Ascending(Captured(w, env).value.units)
    ensures u in Captured(w, env).value.units <==> u.task in w.taskIds && UnitOf(u.task, env.tasks, w.repo) == Ok(u)
  {
    var ids := Deduplicated(w.taskIds);
    DeduplicatedKeeps(w.taskIds);
    UnitsExactly(ids, env.tasks, w.repo);
    var units := UnitsOf(ids, env.tasks, w.repo).value;
    UnitsAsSet(ids, env.tasks, w.repo, u);
    assert DistinctTasks(units);
    SortedAscends(units);
    SortedKeeps(units);
  }

  /** Two workflows linked to the same tasks, in whatever order and however often, are captured alike:
      the same units in the same order, and so the same fingerprint. */
  lemma {:induction false} LinkOrderDoesNotMatter(v: Workflow, w: Workflow, env: Env)
    requires v.repo == w.repo && forall id :: id in v.taskIds <==> id in w.taskIds
    ensures Captured(v, env).Ok? <==> Captured(w, env).Ok?
    ensures Captured(v, env).Ok? ==> Captured(v, env) == Captured(w, env)
  {
    CapturedWhenAllAre(v, env);
    CapturedWhenAllAre(w, env);
    assert v.taskIds == [] || v.taskIds[0] in w.taskIds;
    assert w.taskIds == [] || w.taskIds[0] in v.taskIds;
    if Captured(v, env).Ok? && Captured(w, env).Ok? {
      var a, b := Captured(v, env).value.units, Captured(w, env).value.units;
      CapturedUnits(v, env, NoChangeUnit("", ""));
      CapturedUnits(w, env, NoChangeUnit("", ""));
      forall u ensures u in a <==> u in b {
        CapturedUnits(v, env, u);
        CapturedUnits(w, env, u);
      }
      AscendingUnique(a, b);
    }
  }
}
