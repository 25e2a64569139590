/** The refs with which tasks keep their commits: one that a commit outcome moves, and one that
    collection creates and never moves. */
module GitRefs {
  import opened Base
  import opened Task

  datatype RefError = SafetyRefConflict | NotRetained | RetentionFailed | GitFailed

  /** The refs of the repository. `racer` is what another process writes to a ref between two
      commands of one call, if anything. */
  class Repository {
    var refs: map<string, string>

    constructor ()
      ensures refs == map[]
    {
      refs := map[];
    }

    method AssertRetainedTaskCommit(ref: string, commit: string) returns (r: Result<string, RefError>)
      ensures r == if ref in refs && refs[ref] == commit then Ok(commit) else Err(NotRetained)
    {
      if ref !in refs {
        return Err(NotRetained);
      }
      if refs[ref] != commit {
        return Err(NotRetained);
      }
      return Ok(refs[ref]);
    }

    /** Anchors a commit under the Task's own ref, moving it if it was elsewhere. It succeeds exactly
        when git takes the update and the ref still names the commit when it is verified, whatever
        another process has moved it to in between; no other ref is touched. */
    method RetainTaskCommit(taskId: string, commit: string, updates: bool, mover: Option<string>)
      returns (r: Result<string, RefError>)
      modifies this
      ensures forall ref | ref != RetentionRef(taskId) ::
        (ref in refs <==> ref in old(refs)) && (ref in refs ==> refs[ref] == old(refs)[ref])
      ensures r.Ok? <==> updates && (mover.None? || mover.value == commit)
      ensures r.Ok? ==> r.value == RetentionRef(taskId) && r.value in refs && refs[r.value] == commit
      ensures r.Err? ==> r.error == if updates then RetentionFailed else GitFailed
      ensures !updates ==> refs == old(refs)
      ensures r == Err(RetentionFailed) ==> RetentionRef(taskId) in refs && refs[RetentionRef(taskId)] != commit
    {
      var ref := RetentionRef(taskId);
      if !updates {
        return Err(GitFailed);
      }
      refs := refs[ref := commit];
      Move(ref, mover);
      if refs[ref] != commit {
        return Err(RetentionFailed);
      }
      return Ok(ref);
    }

    /** Another process moves the ref. */
    method Move(ref: string, mover: Option<string>)
      modifies this
      ensures refs == if mover.Some? then old(refs)[ref := mover.value] else old(refs)
    {
      if mover.Some? {
        refs := refs[ref := mover.value];
      }
    }

    /** Another process creates the ref first. */
    method Race(ref: string, racer: Option<string>)
      modifies this
      ensures refs == if racer.Some? && ref !in old(refs) then old(refs)[ref := racer.value] else old(refs)
    {
      if racer.Some? && ref !in refs {
        refs := refs[ref := racer.value];
      }
    }

    /** `update-ref` with an all-zero old value: creates the ref or does nothing. */
    method CreateRef(ref: string, commit: string) returns (created: bool)
      modifies this
      ensures created <==> ref !in old(refs)
      ensures refs == if created then old(refs)[ref := commit] else old(refs)
    {
      created := ref !in refs;
      if created {
        refs := refs[ref := commit];
      }
    }

    /** Succeeds exactly when the safety ref names the commit in the end; a ref that was
        there, or that another process created meanwhile, is never moved. */
    method RetainGcSafetyCommit(taskId: string, commit: string, racer: Option<string>)
      returns (r: Result<string, RefError>)
      modifies this
      ensures r.Ok? ==> r.value == GcSafetyRef(taskId)
      ensures r.Err? ==> r.error == SafetyRefConflict
      ensures GcSafetyRef(taskId) in old(refs) ==>
        refs == old(refs) && (r.Ok? <==> old(refs)[GcSafetyRef(taskId)] == commit)
      ensures GcSafetyRef(taskId) !in old(refs) && racer.Some? ==>
        refs == old(refs)[GcSafetyRef(taskId) := racer.value] && (r.Ok? <==> racer.value == commit)
      ensures GcSafetyRef(taskId) !in old(refs) && racer.None? ==>
        refs == old(refs)[GcSafetyRef(taskId) := commit] && r.Ok?
    {
      var ref := GcSafetyRef(taskId);
      var existing := if ref in refs then Some(refs[ref]) else None;
      Race(ref, racer);
      if existing.Some? && existing.value != commit {
        return Err(SafetyRefConflict);
      }
      if existing.None? {
        var created := CreateRef(ref, commit);
        if !created {
          if refs[ref] != commit {
            return Err(SafetyRefConflict);
          }
        }
      }
      var kept := AssertRetainedTaskCommit(ref, commit);
      assert kept.Ok?;
      return Ok(ref);
    }
  }

  /** Refs of different tasks, or of different kinds, never coincide, so keeping one
      task's commit disturbs no other's. */
  lemma {:induction false} RefsDoNotClash(a: string, b: string)
    ensures RetentionRef(a) != GcSafetyRef(b)
    ensures RetentionRef(a) == RetentionRef(b) <==> a == b
    ensures GcSafetyRef(a) == GcSafetyRef(b) <==> a == b
  {
    assert RetentionRef(a)[15] == 't' && GcSafetyRef(b)[15] == 'g';
    assert RetentionRef(a)[21..] == a && RetentionRef(b)[21..] == b;
    assert GcSafetyRef(a)[25..] == a && GcSafetyRef(b)[25..] == b;
  }
}
