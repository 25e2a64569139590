/** The dependency graph of a plan: the depth-first check that accepts it, and
    why an accepted graph never leaves a plan stuck. */
module PlanGraph {
  import opened Base

  datatype Node = Node(id: string, deps: seq<string>)

  datatype DependencyError = MissingOrSelf(stepId: string, dependency: string) | Cycle(at: string)

  ghost predicate UniqueIds(steps: seq<Node>) {
    forall i, j | 0 <= i < j < |steps| :: steps[i].id != steps[j].id
  }

  function Ids(steps: seq<Node>): set<string> {
    set i | 0 <= i < |steps| :: steps[i].id
  }

  ghost predicate Closed(steps: seq<Node>) {
    forall i, k | 0 <= i < |steps| && 0 <= k < |steps[i].deps| :: GoodDependency(steps, i, k)
  }

  predicate GoodDependency(steps: seq<Node>, i: nat, k: nat)
    requires i < |steps| && k < |steps[i].deps|
  {
    steps[i].deps[k] in Ids(steps) && steps[i].deps[k] != steps[i].id
  }

  /** `a` depends directly on `b`. */
  ghost predicate Edge(steps: seq<Node>, a: string, b: string) {
    exists i :: 0 <= i < |steps| && steps[i].id == a && b in steps[i].deps
  }

  ghost predicate Linked(steps: seq<Node>, p: seq<string>, i: nat)
    requires i + 1 < |p|
  {
    Edge(steps, p[i], p[i + 1])
  }

  ghost predicate IsPath(steps: seq<Node>, p: seq<string>) {
    forall i | 0 <= i < |p| - 1 :: Linked(steps, p, i)
  }

  lemma {:induction false} PathSlice(steps: seq<Node>, p: seq<string>, from: nat, to: nat)
    requires IsPath(steps, p) && from <= to <= |p|
    ensures IsPath(steps, p[from..to])
  {
    forall i | 0 <= i < to - from - 1 ensures Linked(steps, p[from..to], i) {
      assert Linked(steps, p, from + i);
    }
  }

  lemma {:induction false} PathExtend(steps: seq<Node>, p: seq<string>, id: string)
    requires IsPath(steps, p) && (p != [] ==> Edge(steps, p[|p| - 1], id))
    ensures IsPath(steps, p + [id])
  {
    forall i | 0 <= i < |p| ensures Linked(steps, p + [id], i) {
      if i < |p| - 1 {
        assert Linked(steps, p, i);
      }
    }
  }

  ghost predicate IsCycle(steps: seq<Node>, p: seq<string>) {
    |p| >= 2 && p[0] == p[|p| - 1] && IsPath(steps, p)
  }

  ghost predicate Acyclic(steps: seq<Node>) {
    forall p :: !IsCycle(steps, p)
  }

  /** Every name in `order` comes after all the names it depends on. */
  ghost predicate Topological(steps: seq<Node>, order: seq<string>) {
    forall k, b | 0 <= k < |order| && Edge(steps, order[k], b) :: b in order[..k]
  }

  lemma {:induction false} TopologicalPathDescends(steps: seq<Node>, order: seq<string>, p: seq<string>, k: nat)
    requires Topological(steps, order) && IsPath(steps, p) && |p| >= 2
    requires k < |order| && order[k] == p[0]
    ensures p[|p| - 1] in order[..k]
    decreases |p|
  {
    assert Linked(steps, p, 0);
    assert p[1] in order[..k];
    if |p| > 2 {
      var j :| 0 <= j < k && order[j] == p[1];
      PathSlice(steps, p, 1, |p|);
      assert p[1..] == p[1..|p|];
      TopologicalPathDescends(steps, order, p[1..], j);
    }
  }

  lemma {:induction false} EdgesOf(steps: seq<Node>, at: nat)
    requires UniqueIds(steps) && at < |steps|
    ensures forall b | Edge(steps, steps[at].id, b) :: b in steps[at].deps
  {
  }

  lemma {:induction false} TopologicalExtend(steps: seq<Node>, order: seq<string>, id: string)
    requires Topological(steps, order)
    requires forall b | Edge(steps, id, b) :: b in order
    ensures Topological(steps, order + [id])
  {
    var longer := order + [id];
    forall k, b | 0 <= k < |longer| && Edge(steps, longer[k], b) ensures b in longer[..k] {
      if k < |order| {
        assert longer[..k] == order[..k];
        assert b in order[..k];
      } else {
        assert longer[..k] == order;
      }
    }
  }

  ghost predicate FirstAt(order: seq<string>, k: nat) {
    k < |order| && order[k] !in order[..k]
  }

  lemma {:induction false} FirstOccurrence(order: seq<string>, x: string) returns (k: nat)
    requires x in order
    ensures FirstAt(order, k) && order[k] == x
  {
    k := 0;
    while order[k] != x
      invariant k < |order| && x !in order[..k]
      decreases |order| - k
    {
      k := k + 1;
    }
  }

  lemma {:induction false} TopologicalOrderExcludesCycles(steps: seq<Node>, order: seq<string>)
    requires Topological(steps, order)
    requires Ids(steps) <= set x | x in order
    ensures Acyclic(steps)
  {
    forall p ensures !IsCycle(steps, p) {
      if IsCycle(steps, p) {
        assert Linked(steps, p, 0);
        assert p[0] in Ids(steps);
        var k := FirstOccurrence(order, p[0]);
        TopologicalPathDescends(steps, order, p, k);
        assert false;
      }
    }
  }

  /** The depth-first search of `validateDependencies`. `stack` and `finished`
      record the recursion stack and the order in which names were left. */
  class CycleSearch {
    const steps: seq<Node>
    var visiting: set<string>
    var visited: set<string>
    ghost var stack: seq<string>
    ghost var finished: seq<string>

    ghost predicate Valid()
      reads this
    {
      && UniqueIds(steps)
      && Closed(steps)
      && visiting == (set x | x in stack)
      && visited == (set x | x in finished)
      && visiting <= Ids(steps)
      && IsPath(steps, stack)
      && Topological(steps, finished)
    }

    constructor (steps: seq<Node>)
      requires UniqueIds(steps) && Closed(steps)
      ensures this.steps == steps && Valid() && stack == [] && visited == {}
    {
      this.steps := steps;
      visiting, visited := {}, {};
      stack, finished := [], [];
    }

    method Visit(id: string) returns (error: Option<DependencyError>)
      requires Valid() && id in Ids(steps)
      requires stack != [] ==> Edge(steps, stack[|stack| - 1], id)
      modifies this
      ensures error.Some? ==> error.value.Cycle? && !Acyclic(steps)
      ensures error.None? ==> Valid() && stack == old(stack) && visiting == old(visiting)
      ensures error.None? ==> id in visited && old(visited) <= visited
      decreases Ids(steps) - visiting
    {
      if id in visiting {
        ghost var from :| 0 <= from < |stack| && stack[from] == id;
        PathSlice(steps, stack, from, |stack|);
        assert stack[from..] == stack[from..|stack|];
        PathExtend(steps, stack[from..], id);
        assert IsCycle(steps, stack[from..] + [id]);
        return Some(Cycle(id));
      }
      if id in visited {
        return None;
      }
      PathExtend(steps, stack, id);
      visiting := visiting + {id};
      stack := stack + [id];
      var at := FindStep(id);
      var i := 0;
      while i < |steps[at].deps|
        invariant 0 <= i <= |steps[at].deps|
        invariant Valid() && stack == old(stack) + [id] && visiting == old(visiting) + {id}
        invariant old(visited) <= visited
        invariant forall k | 0 <= k < i :: steps[at].deps[k] in visited
      {
        assert GoodDependency(steps, at, i);
        assert Edge(steps, id, steps[at].deps[i]);
        error := Visit(steps[at].deps[i]);
        if error.Some? {
          return;
        }
        i := i + 1;
      }
      EdgesOf(steps, at);
      TopologicalExtend(steps, finished, id);
      visiting := visiting - {id};
      visited := visited + {id};
      stack := stack[..|stack| - 1];
      finished := finished + [id];
      assert stack == old(stack);
      return None;
    }

    method FindStep(id: string) returns (at: nat)
      requires id in Ids(steps)
      ensures at < |steps| && steps[at].id == id
    {
      at := 0;
      while steps[at].id != id
        invariant at < |steps| && forall k | 0 <= k < at :: steps[k].id != id
        decreases |steps| - at
      {
        at := at + 1;
      }
    }
  }

  /** Accepts exactly the closed acyclic graphs; names are already known to be distinct. */
  method ValidateDependencies(steps: seq<Node>) returns (error: Option<DependencyError>)
    requires UniqueIds(steps)
    ensures error.None? <==> Closed(steps) && Acyclic(steps)
    ensures error.Some? && error.value.MissingOrSelf? <==> !Closed(steps)
  {
    var i := 0;
    while i < |steps|
      invariant 0 <= i <= |steps|
      invariant forall a, k | 0 <= a < i && 0 <= k < |steps[a].deps| :: GoodDependency(steps, a, k)
    {
      var k := 0;
      while k < |steps[i].deps|
        invariant 0 <= k <= |steps[i].deps|
        invariant forall m | 0 <= m < k :: GoodDependency(steps, i, m)
      {
        if !GoodDependency(steps, i, k) {
          return Some(MissingOrSelf(steps[i].id, steps[i].deps[k]));
        }
        k := k + 1;
      }
      i := i + 1;
    }
    var search := new CycleSearch(steps);
    i := 0;
    while i < |steps|
      invariant 0 <= i <= |steps|
      invariant search.steps == steps && search.Valid() && search.stack == []
      invariant forall k | 0 <= k < i :: steps[k].id in search.visited
    {
      error := search.Visit(steps[i].id);
      if error.Some? {
        return;
      }
      i := i + 1;
    }
    TopologicalOrderExcludesCycles(steps, search.finished);
    return None;
  }

  lemma {:induction false} DistinctFit(p: seq<string>, S: set<string>)
    requires forall i | 0 <= i < |p| :: p[i] in S
    requires forall i, j | 0 <= i < j < |p| :: p[i] != p[j]
    ensures |p| <= |S|
    decreases |p|
  {
    if p != [] {
      DistinctFit(p[1..], S - {p[0]});
    }
  }

  ghost predicate HasEdgeInto(steps: seq<Node>, S: set<string>, a: string) {
    exists b :: b in S && Edge(steps, a, b)
  }

  ghost predicate NoSource(steps: seq<Node>, S: set<string>) {
    forall a {:trigger HasEdgeInto(steps, S, a)} | a in S :: HasEdgeInto(steps, S, a)
  }

  lemma {:induction false} EndlessWalk(steps: seq<Node>, S: set<string>, n: nat) returns (p: seq<string>)
    requires S != {}
    requires NoSource(steps, S)
    ensures |p| == n + 1 && IsPath(steps, p) && forall i | 0 <= i < |p| :: p[i] in S
  {
    if n == 0 {
      var a :| a in S;
      p := [a];
    } else {
      p := EndlessWalk(steps, S, n - 1);
      assert HasEdgeInto(steps, S, p[n - 1]);
      var b :| b in S && Edge(steps, p[n - 1], b);
      PathExtend(steps, p, b);
      p := p + [b];
    }
  }

  /** In an acyclic graph every non-empty set of names has a member none of whose
      dependencies is in the set. */
  lemma {:induction false} AcyclicHasSource(steps: seq<Node>, S: set<string>) returns (a: string)
    requires Acyclic(steps) && S != {}
    ensures a in S && forall b | Edge(steps, a, b) :: b !in S
  {
    if NoSource(steps, S) {
      var p := EndlessWalk(steps, S, |S|);
      if forall i, j | 0 <= i < j < |p| :: p[i] != p[j] {
        DistinctFit(p, S);
        assert false;
      }
      var i, j :| 0 <= i < j < |p| && p[i] == p[j];
      PathSlice(steps, p, i, j + 1);
      assert IsCycle(steps, p[i..j + 1]);
      assert false;
    }
    a :| a in S && !HasEdgeInto(steps, S, a);
    forall b | Edge(steps, a, b) ensures b !in S {
    }
  }
}
