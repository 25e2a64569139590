/** The durable operation records behind idempotency keys: claim, mark, and the
    retention rule that keeps their number bounded. */
module Idempotency {
  import opened Base
  import opened Canonical

  datatype OpStatus = Claimed | Running | Cancelling | Exited | Failed | Cancelled | Interrupted

  /** `fingerprint` is the canonical form of the request, in place of its hash; times are milliseconds. */
  datatype Operation = Operation(
    taskId: string,
    tool: string,
    fingerprint: Json,
    runId: string,
    status: OpStatus,
    owner: string,
    updatedAt: int,
    completedAt: Option<int>)

  datatype ClaimError = RetentionFull | KeyReused(runId: string)

  type Operations = map<string, Operation>

  predicate IsTerminal(s: OpStatus) {
    s == Exited || s == Failed || s == Cancelled || s == Interrupted
  }

  function EndTime(op: Operation): int {
    if op.completedAt.Some? then op.completedAt.value else op.updatedAt
  }

  predicate Expired(op: Operation, now: int, retentionMs: int) {
    IsTerminal(op.status) && now - EndTime(op) >= retentionMs
  }

  function Unexpired(ops: Operations, now: int, retentionMs: int): Operations {
    map id | id in ops && !Expired(ops[id], now, retentionMs) :: ops[id]
  }

  function NonTerminal(ops: Operations): Operations {
    map id | id in ops && !IsTerminal(ops[id].status) :: ops[id]
  }

  function Without(ops: Operations, ids: seq<string>): Operations {
    map id | id in ops && id !in ids :: ops[id]
  }

  ghost predicate SubMap(a: Operations, b: Operations) {
    forall id | id in a :: id in b && a[id] == b[id]
  }

  // ----- Oldest first -----

  ghost predicate OldestFirst(ids: seq<string>, ops: Operations)
    requires forall id | id in ids :: id in ops
  {
    forall i, j | 0 <= i < j < |ids| :: EndTime(ops[ids[i]]) <= EndTime(ops[ids[j]])
  }

  ghost predicate Distinct(ids: seq<string>) {
    forall i, j | 0 <= i < j < |ids| :: ids[i] != ids[j]
  }

  function InsertByTime(id: string, ids: seq<string>, ops: Operations): (r: seq<string>)
    requires id in ops && forall x | x in ids :: x in ops
    ensures |r| == |ids| + 1 && forall x :: x in r <==> x == id || x in ids
  {
    if ids == [] || EndTime(ops[id]) < EndTime(ops[ids[0]]) then [id] + ids
    else [ids[0]] + InsertByTime(id, ids[1..], ops)
  }

  function SortByTime(ids: seq<string>, ops: Operations): (r: seq<string>)
    requires forall x | x in ids :: x in ops
    ensures |r| == |ids| && forall x :: x in r <==> x in ids
  {
    if ids == [] then [] else
      var last := ids[|ids| - 1];
      assert forall x :: x in ids <==> x == last || x in ids[..|ids| - 1];
      InsertByTime(last, SortByTime(ids[..|ids| - 1], ops), ops)
  }

  lemma {:induction false} InsertKeepsOrder(id: string, ids: seq<string>, ops: Operations)
    requires id in ops && (forall x | x in ids :: x in ops) && OldestFirst(ids, ops)
    requires id !in ids && Distinct(ids)
    ensures OldestFirst(InsertByTime(id, ids, ops), ops) && Distinct(InsertByTime(id, ids, ops))
  {
    if ids != [] && EndTime(ops[id]) >= EndTime(ops[ids[0]]) {
      InsertKeepsOrder(id, ids[1..], ops);
      var rest := InsertByTime(id, ids[1..], ops);
      forall j | 0 <= j < |rest| ensures EndTime(ops[ids[0]]) <= EndTime(ops[rest[j]]) && rest[j] != ids[0] {
        assert rest[j] in rest;
      }
    }
  }

  lemma {:induction false} SortedByTime(ids: seq<string>, ops: Operations)
    requires (forall x | x in ids :: x in ops) && Distinct(ids)
    ensures OldestFirst(SortByTime(ids, ops), ops) && Distinct(SortByTime(ids, ops))
  {
    if ids != [] {
      var init := ids[..|ids| - 1];
      SortedByTime(init, ops);
      InsertKeepsOrder(ids[|ids| - 1], SortByTime(init, ops), ops);
    }
  }

  // ----- What pruning promises -----

  /** Expired terminal records go; if that leaves too many, the oldest terminal ones
      go too, and no more of them than needed to get below `max`. */
  ghost predicate Pruned(before: Operations, after: Operations, now: int, retentionMs: int, max: nat) {
    var kept := Unexpired(before, now, retentionMs);
    && SubMap(after, kept)
    && SubMap(NonTerminal(before), after)
    && (|kept| < max ==> after == kept)
    && (|kept| >= max ==>
          && (if |NonTerminal(before)| < max then |after| == max - 1 else after == NonTerminal(before))
          && forall a, b | a in kept && a !in after && b in after && IsTerminal(after[b].status) ::
               EndTime(kept[a]) <= EndTime(after[b]))
  }

  /** Pruning gets below the limit exactly when the unfinished operations alone do not fill it. */
  lemma {:induction false} PrunedBelowLimit(before: Operations, after: Operations, now: int, retentionMs: int, max: nat)
    requires Pruned(before, after, now, retentionMs, max)
    ensures |after| < max <==> |NonTerminal(before)| < max
    ensures |after| <= |before|
  {
    var kept := Unexpired(before, now, retentionMs);
    SubMapSmaller(after, kept);
    SubMapSmaller(kept, before);
    SubMapSmaller(NonTerminal(before), after);
  }

  lemma {:induction false} SubMapSmaller(a: Operations, b: Operations)
    requires SubMap(a, b)
    ensures |a| <= |b|
  {
    SubsetSmaller(a.Keys, b.Keys);
    assert |a| == |a.Keys| && |b| == |b.Keys|;
  }

  lemma {:induction false} UnfinishedFit(before: Operations, now: int, retentionMs: int)
    ensures SubMap(NonTerminal(before), Unexpired(before, now, retentionMs))
    ensures |NonTerminal(before)| <= |Unexpired(before, now, retentionMs)|
  {
    SubMapSmaller(NonTerminal(before), Unexpired(before, now, retentionMs));
  }

  lemma {:induction false} DropOne(ops: Operations, ids: seq<string>, k: nat)
    requires k < |ids| && ids[k] in ops && Distinct(ids)
    ensures Without(ops, ids[..k + 1]) == Without(ops, ids[..k]) - {ids[k]}
    ensures |Without(ops, ids[..k + 1])| == |Without(ops, ids[..k])| - 1
  {
  }

  lemma {:induction false} DroppedAreOldest(kept: Operations, terminal: seq<string>, k: nat, a: string, b: string)
    requires k <= |terminal| && (forall id :: id in terminal <==> id in kept && IsTerminal(kept[id].status))
    requires OldestFirst(terminal, kept)
    requires a in kept && a in terminal[..k] && b in kept && b !in terminal[..k] && IsTerminal(kept[b].status)
    ensures EndTime(kept[a]) <= EndTime(kept[b])
  {
  }

  lemma {:induction false} AllTerminalDropped(before: Operations, terminal: seq<string>, now: int, retentionMs: int)
    requires var kept := Unexpired(before, now, retentionMs);
      forall id :: id in terminal <==> id in kept && IsTerminal(kept[id].status)
    ensures Without(Unexpired(before, now, retentionMs), terminal) == NonTerminal(before)
  {
  }

  /** Deleting the `k` oldest terminal records, and no more than needed, is pruning. */
  lemma {:induction false} OldestDropped(before: Operations, terminal: seq<string>, k: nat,
                                         now: int, retentionMs: int, max: nat)
    requires k <= |terminal|
    requires var kept := Unexpired(before, now, retentionMs);
      var after := Without(kept, terminal[..k]);
      && |kept| >= max
      && (forall id :: id in terminal <==> id in kept && IsTerminal(kept[id].status))
      && OldestFirst(terminal, kept)
      && (|after| < max || k == |terminal|)
      && (if k > 0 then |after| >= max - 1 else |after| == |kept|)
    ensures Pruned(before, Without(Unexpired(before, now, retentionMs), terminal[..k]), now, retentionMs, max)
  {
    var kept := Unexpired(before, now, retentionMs);
    var after := Without(kept, terminal[..k]);
    var unfinished := NonTerminal(before);
    forall id | id in unfinished ensures id in after {
      assert id !in terminal[..k];
    }
    SubMapSmaller(unfinished, after);
    if k == |terminal| {
      assert terminal[..k] == terminal;
      AllTerminalDropped(before, terminal, now, retentionMs);
    }
    forall a, b | a in kept && a !in after && b in after && IsTerminal(after[b].status)
      ensures EndTime(kept[a]) <= EndTime(after[b])
    {
      DroppedAreOldest(kept, terminal, k, a, b);
    }
  }

  // ----- What the calls do, said without the functions above -----

  ghost predicate Over(op: Operation) {
    op.status in {Exited, Failed, Cancelled, Interrupted}
  }

  /** Finished at least `ms` ago; a record without a completion time counts from its last update. */
  ghost predicate OverFor(op: Operation, now: int, ms: int) {
    Over(op) && now - (if op.completedAt == None then op.updatedAt else op.completedAt.value) >= ms
  }

  ghost predicate NotLater(a: Operation, b: Operation) {
    forall now, ms | OverFor(b, now, ms) :: OverFor(a, now, ms)
  }

  /** Records go only when they are finished. All that are over for the retention time go; another goes
      only when that many are kept that one more would reach the limit, and no kept finished one ended
      before it; and as long as the limit is reached no finished one stays. */
  ghost predicate Prunes(before: Operations, after: Operations, now: int, retentionMs: int, max: nat) {
    && (forall id | id in after :: id in before && after[id] == before[id] && !OverFor(after[id], now, retentionMs))
    && (forall id | id in before && id !in after :: Over(before[id]))
    && (forall id | id in before && id !in after && !OverFor(before[id], now, retentionMs) ::
          |after| + 1 >= max && forall b | b in after && Over(after[b]) :: NotLater(before[id], after[b]))
    && (|after| >= max ==> forall id | id in after :: !Over(after[id]))
  }

  lemma {:induction false} EndsInOrder(a: Operation, b: Operation)
    requires IsTerminal(a.status) && EndTime(a) <= EndTime(b)
    ensures NotLater(a, b)
  {
  }

  /** Pruning is just that. */
  lemma {:induction false} PruneMeans(before: Operations, after: Operations, now: int, retentionMs: int, max: nat)
    requires Pruned(before, after, now, retentionMs, max)
    ensures Prunes(before, after, now, retentionMs, max)
  {
    var kept := Unexpired(before, now, retentionMs);
    forall id | id in before && id !in after ensures Over(before[id]) {
      assert id !in NonTerminal(before);
    }
    forall id, b | id in kept && id !in after && b in after && Over(after[b]) ensures NotLater(before[id], after[b]) {
      assert IsTerminal(after[b].status) && EndTime(kept[id]) <= EndTime(after[b]);
      EndsInOrder(before[id], after[b]);
    }
    if |after| >= max {
      PrunedBelowLimit(before, after, now, retentionMs, max);
      SubMapSmaller(after, kept);
      assert after == NonTerminal(before);
    }
  }

  /** A claim prunes first. A full store refuses it, a free key is given to the run, and a taken key is
      answered with its operation when the task, the tool and the request are the same. */
  ghost predicate Claims(
    before: Operations, after: Operations, id: string, taskId: string, tool: string, fingerprint: Json,
    runId: string, owner: string, r: Result<(Operation, bool), ClaimError>, now: int, retentionMs: int, max: nat)
  {
    exists mid ::
      && Prunes(before, mid, now, retentionMs, max)
      && Takes(mid, after, id, taskId, tool, fingerprint, runId, owner, r, now, max)
  }

  ghost predicate Takes(
    mid: Operations, after: Operations, id: string, taskId: string, tool: string, fingerprint: Json,
    runId: string, owner: string, r: Result<(Operation, bool), ClaimError>, now: int, max: nat)
  {
    && (r == Err(RetentionFull) <==> |mid| >= max)
    && (|mid| < max && id !in mid ==>
          && r == Ok((Operation(taskId, tool, fingerprint, runId, Claimed, owner, now, None), true))
          && after == mid[id := r.value.0])
    && (|mid| >= max || id in mid ==> after == mid)
    && (|mid| < max && id in mid ==>
          if mid[id].taskId == taskId && mid[id].tool == tool && mid[id].fingerprint == fingerprint
          then r == Ok((mid[id], false)) else r == Err(KeyReused(mid[id].runId)))
  }

  lemma {:induction false} ClaimMeans(
    before: Operations, mid: Operations, after: Operations, id: string, taskId: string, tool: string,
    fingerprint: Json, runId: string, owner: string, r: Result<(Operation, bool), ClaimError>, now: int,
    retentionMs: int, max: nat)
    requires ClaimFrom(before, mid, after, id, Fresh(taskId, tool, fingerprint, runId, owner, now), r, now,
                       retentionMs, max)
    ensures Claims(before, after, id, taskId, tool, fingerprint, runId, owner, r, now, retentionMs, max)
  {
    PruneMeans(before, mid, now, retentionMs, max);
    assert Takes(mid, after, id, taskId, tool, fingerprint, runId, owner, r, now, max);
  }

  /** Only the run that holds the key moves its operation, which is completed the first time it is over. */
  ghost predicate Marks(before: Operations, after: Operations, id: string, runId: string, status: OpStatus, now: int)
  {
    if id in before && before[id].runId == runId then
      && id in after && after == before[id := after[id]]
      && after[id] == before[id].(status := status, updatedAt := now, completedAt := after[id].completedAt)
      && (before[id].completedAt.Some? ==> after[id].completedAt == before[id].completedAt)
      && (before[id].completedAt.None? ==>
            after[id].completedAt ==
              if status in {Exited, Failed, Cancelled, Interrupted} then Some(now) else None)
    else after == before
  }

  lemma {:induction false} MarkMeans(ops: Operations, id: string, runId: string, status: OpStatus, now: int)
    ensures Marks(ops, Marked(ops, id, runId, status, now), id, runId, status, now)
  {
  }

  class IdempotencyService {
    const retentionMs: int
    const maxRecords: nat
    var ops: Operations

    constructor (retentionMs: int, maxRecords: nat)
      ensures this.retentionMs == retentionMs && this.maxRecords == maxRecords && ops == map[]
    {
      this.retentionMs := retentionMs;
      this.maxRecords := maxRecords;
      ops := map[];
    }

    method ListIds() returns (ids: seq<string>)
      ensures Distinct(ids) && forall id :: id in ids <==> id in ops
    {
      ids := [];
      var left := ops.Keys;
      while left != {}
        invariant left <= ops.Keys && Distinct(ids)
        invariant forall id :: id in ids <==> id in ops && id !in left
        decreases left
      {
        var id :| id in left;
        left := left - {id};
        ids := ids + [id];
      }
    }

    method DropExpired(now: int)
      modifies this
      ensures ops == Unexpired(old(ops), now, retentionMs)
    {
      var ids := ListIds();
      var i := 0;
      while i < |ids|
        invariant 0 <= i <= |ids|
        invariant SubMap(ops, old(ops))
        invariant forall k | 0 <= k < |ids| ::
          ids[k] in ops <==> k >= i || !Expired(old(ops)[ids[k]], now, retentionMs)
      {
        var op := ops[ids[i]];
        if IsTerminal(op.status) && now - EndTime(op) >= retentionMs {
          ops := ops - {ids[i]};
        }
        i := i + 1;
      }
      var kept := Unexpired(old(ops), now, retentionMs);
      forall id ensures id in ops <==> id in kept {
        if id in old(ops) {
          var k :| 0 <= k < |ids| && ids[k] == id;
        }
      }
      assert ops.Keys == kept.Keys;
    }

    method TerminalIds() returns (ids: seq<string>)
      ensures Distinct(ids) && forall id :: id in ids <==> id in ops && IsTerminal(ops[id].status)
    {
      var all := ListIds();
      ids := [];
      var i := 0;
      while i < |all|
        invariant 0 <= i <= |all| && Distinct(ids)
        invariant forall id :: id in ids <==> id in all[..i] && IsTerminal(ops[id].status)
      {
        assert all[..i + 1] == all[..i] + [all[i]];
        if IsTerminal(ops[all[i]].status) {
          ids := ids + [all[i]];
        }
        i := i + 1;
      }
      assert all[..i] == all;
    }

    /** Deletes `terminal` from the front until fewer than `maxRecords` operations remain. */
    method DropUntilBelow(terminal: seq<string>) returns (k: nat)
      requires Distinct(terminal) && forall id | id in terminal :: id in ops
      modifies this
      ensures k <= |terminal| && ops == Without(old(ops), terminal[..k])
      ensures |ops| == |old(ops)| - k
      ensures |ops| < maxRecords || k == |terminal|
      ensures k > 0 ==> |ops| >= maxRecords - 1
    {
      k := 0;
      while k < |terminal| && |ops| >= maxRecords
        invariant k <= |terminal| && ops == Without(old(ops), terminal[..k])
        invariant |ops| == |old(ops)| - k
        invariant k > 0 ==> |ops| >= maxRecords - 1
      {
        DropOne(old(ops), terminal, k);
        ops := ops - {terminal[k]};
        k := k + 1;
      }
    }

    method Prune(now: int) returns (full: bool)
      modifies this
      ensures Pruned(old(ops), ops, now, retentionMs, maxRecords)
      ensures Prunes(old(ops), ops, now, retentionMs, maxRecords)
      ensures full <==> |NonTerminal(old(ops))| >= maxRecords
      ensures !full ==> |ops| < maxRecords
    {
      ghost var before := ops;
      DropExpired(now);
      ghost var kept := ops;
      if |ops| < maxRecords {
        UnfinishedFit(before, now, retentionMs);
        PruneMeans(before, ops, now, retentionMs, maxRecords);
        return false;
      }
      var ids := TerminalIds();
      var terminal := SortByTime(ids, ops);
      SortedByTime(ids, ops);
      var k := DropUntilBelow(terminal);
      OldestDropped(before, terminal, k, now, retentionMs, maxRecords);
      PrunedBelowLimit(before, ops, now, retentionMs, maxRecords);
      PruneMeans(before, ops, now, retentionMs, maxRecords);
      return |ops| >= maxRecords;
    }

    /** Finds the operation of a key, or reports that the key was used for another request. */
    method Lookup(id: string, taskId: string, tool: string, fingerprint: Json)
      returns (r: Result<Option<Operation>, ClaimError>)
      ensures id !in ops ==> r == Ok(None)
      ensures id in ops && SameRequest(ops[id], taskId, tool, fingerprint) ==> r == Ok(Some(ops[id]))
      ensures id in ops && !SameRequest(ops[id], taskId, tool, fingerprint) ==> r == Err(KeyReused(ops[id].runId))
    {
      if id !in ops {
        return Ok(None);
      }
      if ops[id].taskId != taskId || ops[id].tool != tool || ops[id].fingerprint != fingerprint {
        return Err(KeyReused(ops[id].runId));
      }
      return Ok(Some(ops[id]));
    }

    /** Gives the key to `runId` unless it is taken; the holder is the same for every later claim. */
    method Claim(id: string, taskId: string, tool: string, fingerprint: Json, runId: string, owner: string, now: int)
      returns (r: Result<(Operation, bool), ClaimError>)
      modifies this
      ensures exists mid :: ClaimFrom(old(ops), mid, ops, id, Fresh(taskId, tool, fingerprint, runId, owner, now), r,
                                      now, retentionMs, maxRecords)
      ensures Claims(old(ops), ops, id, taskId, tool, fingerprint, runId, owner, r, now, retentionMs, maxRecords)
    {
      ghost var wanted := Fresh(taskId, tool, fingerprint, runId, owner, now);
      ghost var before := ops;
      var full := Prune(now);
      ghost var mid := ops;
      PrunedBelowLimit(before, mid, now, retentionMs, maxRecords);
      if full {
        r := Err(RetentionFull);
      } else if id in ops {
        if ops[id].taskId != taskId || ops[id].tool != tool || ops[id].fingerprint != fingerprint {
          r := Err(KeyReused(ops[id].runId));
        } else {
          r := Ok((ops[id], false));
        }
      } else {
        var op := Operation(taskId, tool, fingerprint, runId, Claimed, owner, now, None);
        ops := ops[id := op];
        r := Ok((op, true));
      }
      assert ClaimFrom(before, mid, ops, id, wanted, r, now, retentionMs, maxRecords);
      ClaimMeans(before, mid, ops, id, taskId, tool, fingerprint, runId, owner, r, now, retentionMs, maxRecords);
    }

    /** Moves an operation of this run to a status; the completion time is set once. */
    method Mark(id: string, runId: string, status: OpStatus, now: int)
      modifies this
      ensures ops == Marked(old(ops), id, runId, status, now)
      ensures Marks(old(ops), ops, id, runId, status, now)
    {
      MarkMeans(ops, id, runId, status, now);
      if id in ops && ops[id].runId == runId {
        var op := ops[id].(status := status, updatedAt := now);
        if IsTerminal(status) && op.completedAt.None? {
          op := op.(completedAt := Some(now));
        }
        ops := ops[id := op];
      }
    }
  }

  predicate SameRequest(op: Operation, taskId: string, tool: string, fingerprint: Json) {
    op.taskId == taskId && op.tool == tool && op.fingerprint == fingerprint
  }

  /** A key may be used again exactly for the request it was first used for, in the same task and
      tool; the order in which the request's properties are given does not matter. */
  lemma {:induction false} ReusedExactlyForSameRequest(
    op: Operation, first: Json, taskId: string, tool: string, again: Json)
    requires WellFormed(first) && WellFormed(again) && op.fingerprint == Canonicalize(first)
    ensures SameRequest(op, taskId, tool, Canonicalize(again)) <==>
            op.taskId == taskId && op.tool == tool && Same(first, again)
  {
    CanonicalExactly(first, again);
  }

  function Fresh(taskId: string, tool: string, fingerprint: Json, runId: string, owner: string, now: int): Operation {
    Operation(taskId, tool, fingerprint, runId, Claimed, owner, now, None)
  }

  function Marked(ops: Operations, id: string, runId: string, status: OpStatus, now: int): Operations {
    if id in ops && ops[id].runId == runId then
      var op := ops[id];
      ops[id := op.(
        status := status,
        updatedAt := now,
        completedAt := if IsTerminal(status) && op.completedAt.None? then Some(now) else op.completedAt)]
    else ops
  }

  /** A claim prunes `before` to `mid` and then takes the key if it is free. */
  ghost predicate ClaimFrom(before: Operations, mid: Operations, after: Operations, id: string, wanted: Operation,
                            r: Result<(Operation, bool), ClaimError>, now: int, retentionMs: int, max: nat)
  {
    && Pruned(before, mid, now, retentionMs, max)
    && (if |mid| >= max then after == mid && r == Err(RetentionFull)
        else if id !in mid then after == mid[id := wanted] && r == Ok((wanted, true))
        else
          && after == mid
          && r == if SameRequest(mid[id], wanted.taskId, wanted.tool, wanted.fingerprint)
                  then Ok((mid[id], false)) else Err(KeyReused(mid[id].runId)))
  }

  /** One non-overlapping service call. */
  ghost predicate CallStep(before: Operations, after: Operations, retentionMs: int, max: nat) {
    || (exists id, runId, status, now :: after == Marked(before, id, runId, status, now))
    || (exists now :: Pruned(before, after, now, retentionMs, max))
    || (exists mid, id, wanted, r, now :: ClaimFrom(before, mid, after, id, wanted, r, now, retentionMs, max))
  }

  ghost predicate CallAt(history: seq<Operations>, i: nat, retentionMs: int, max: nat)
    requires i + 1 < |history|
  {
    CallStep(history[i], history[i + 1], retentionMs, max)
  }

  /** The states between any sequence of non-overlapping calls. */
  ghost predicate IsHistory(history: seq<Operations>, retentionMs: int, max: nat) {
    forall i: nat | i + 1 < |history| :: CallAt(history, i, retentionMs, max)
  }

  /** Any sequence of non-overlapping calls keeps at most `max` operations. */
  lemma {:induction false} RetentionBounded(history: seq<Operations>, retentionMs: int, max: nat)
    requires history != [] && history[0] == map[]
    requires IsHistory(history, retentionMs, max)
    ensures forall k | 0 <= k < |history| :: |history[k]| <= max
  {
    var k := 0;
    while k + 1 < |history|
      invariant 0 <= k < |history|
      invariant forall j | 0 <= j <= k :: |history[j]| <= max
    {
      assert CallAt(history, k, retentionMs, max);
      CallKeepsBound(history[k], history[k + 1], retentionMs, max);
      k := k + 1;
    }
  }

  lemma {:induction false} CallKeepsBound(before: Operations, after: Operations, retentionMs: int, max: nat)
    requires |before| <= max && CallStep(before, after, retentionMs, max)
    ensures |after| <= max
  {
    if id, runId, status, now :| after == Marked(before, id, runId, status, now) {
      if after != before {
        assert after.Keys == before.Keys && |after| == |after.Keys| && |before| == |before.Keys|;
      }
    } else if now :| Pruned(before, after, now, retentionMs, max) {
      PrunedBelowLimit(before, after, now, retentionMs, max);
    } else {
      var mid, id, wanted, r, now :| ClaimFrom(before, mid, after, id, wanted, r, now, retentionMs, max);
      ClaimKeepsBound(before, mid, after, id, wanted, r, now, retentionMs, max);
    }
  }

  lemma {:induction false} ClaimKeepsBound(before: Operations, mid: Operations, after: Operations, id: string,
      wanted: Operation, r: Result<(Operation, bool), ClaimError>, now: int, retentionMs: int, max: nat)
    requires |before| <= max && ClaimFrom(before, mid, after, id, wanted, r, now, retentionMs, max)
    ensures |after| <= max
  {
    PrunedBelowLimit(before, mid, now, retentionMs, max);
    if |mid| < max && id !in mid {
      assert after.Keys == mid.Keys + {id} && |after| == |after.Keys| && |mid| == |mid.Keys|;
    }
  }

  /** The operation is there and unfinished. */
  predicate Unfinished(ops: Operations, id: string) {
    id in ops && !IsTerminal(ops[id].status)
  }

  /** Everything but the status and the times. */
  predicate SameHolder(a: Operation, b: Operation) {
    a.runId == b.runId && a.owner == b.owner && SameRequest(a, b.taskId, b.tool, b.fingerprint)
  }

  lemma {:induction false} ClaimKeepsUnfinished(before: Operations, mid: Operations, after: Operations, id: string,
      key: string, wanted: Operation, r: Result<(Operation, bool), ClaimError>, now: int, retentionMs: int, max: nat)
    requires ClaimFrom(before, mid, after, key, wanted, r, now, retentionMs, max) && Unfinished(before, id)
    ensures id in after && after[id] == before[id]
    ensures key == id && r.Ok? ==> r.value == (before[id], false)
  {
    assert id in mid && mid[id] == before[id];
  }

  lemma {:induction false} CallKeepsUnfinished(
    before: Operations, after: Operations, id: string, retentionMs: int, max: nat)
    requires CallStep(before, after, retentionMs, max) && Unfinished(before, id)
    ensures id in after && SameHolder(after[id], before[id])
  {
    if key, runId, status, now :| after == Marked(before, key, runId, status, now) {
    } else if now :| Pruned(before, after, now, retentionMs, max) {
    } else {
      var mid, key, wanted, r, now :| ClaimFrom(before, mid, after, key, wanted, r, now, retentionMs, max);
      ClaimKeepsUnfinished(before, mid, after, id, key, wanted, r, now, retentionMs, max);
    }
  }

  /** As long as the operation of a key is unfinished, whatever is claimed, marked or pruned, the
      key stays with the run and the request that took it. */
  lemma {:induction false} UnfinishedKeyKeepsItsRun(
    history: seq<Operations>, id: string, j: nat, k: nat, retentionMs: int, max: nat)
    requires j <= k < |history|
    requires IsHistory(history, retentionMs, max)
    requires forall i | j <= i < k :: Unfinished(history[i], id)
    requires id in history[j]
    ensures id in history[k] && SameHolder(history[k][id], history[j][id])
    decreases k - j
  {
    if j < k {
      UnfinishedKeyKeepsItsRun(history, id, j, k - 1, retentionMs, max);
      assert CallAt(history, k - 1, retentionMs, max);
      CallKeepsUnfinished(history[k - 1], history[k], id, retentionMs, max);
    }
  }

  /** And a claim of the key meanwhile, for whatever run, is answered with that run or refused. */
  lemma {:induction false} ClaimMeanwhile(history: seq<Operations>, id: string, j: nat, k: nat,
      mid: Operations, after: Operations, wanted: Operation, r: Result<(Operation, bool), ClaimError>, now: int,
      retentionMs: int, max: nat)
    requires j <= k < |history|
    requires IsHistory(history, retentionMs, max)
    requires id in history[j] && forall i | j <= i <= k :: Unfinished(history[i], id)
    requires ClaimFrom(history[k], mid, after, id, wanted, r, now, retentionMs, max)
    ensures r.Ok? ==> !r.value.1 && SameHolder(r.value.0, history[j][id])
    ensures r.Err? && r.error.KeyReused? ==> r.error.runId == history[j][id].runId
  {
    UnfinishedKeyKeepsItsRun(history, id, j, k, retentionMs, max);
    assert Unfinished(history[k], id) && Unfinished(history[j], id);
    ClaimKeepsUnfinished(history[k], mid, after, id, id, wanted, r, now, retentionMs, max);
  }
}
