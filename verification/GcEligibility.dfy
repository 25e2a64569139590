/** Which finalised tasks may have their worktree collected: the decision shown in a
    preview, the guards of the cleanup that follows it, and why they agree. */
module GcEligibility {
  import opened Approval
  import opened Base
  import opened Task

  /** What the checks of the worktree path and its registration come to. */
  datatype PathCheck = PathOk | PathUnsafe | PathMissing | PathFails

  datatype Registration = Registered | NotRegistered | RegistrationFails

  /** What the services can see of one task besides its document, in one state. */
  datatype Facts = Facts(
    stale: bool,
    present: bool,
    inspectionFails: bool,
    bytes: nat,
    updatedAt: int,
    finalizedAt: Option<int>,
    now: int,
    activeRuns: nat,
    openPlans: nat,
    path: PathCheck,
    registration: Registration,
    changedFiles: Option<nat>,
    head: Option<string>,
    retained: Option<string>,
    safety: Option<string>,
    headLocked: bool)

  datatype Entry = Entry(task: TaskState, facts: Facts)

  /** A directory that passes the path check is there, and a commit identity is never empty. */
  ghost predicate FactsOk(f: Facts) {
    && (f.path == PathOk ==> f.present)
    && (f.head.Some? ==> f.head.value != "")
    && (f.retained.Some? ==> f.retained.value != "")
  }

  // ----- The preview -----

  datatype GcPolicy =
    | CancelledClean
    | CommitRetained
    | NoChangeAged
    | LegacyNoChange
    | LegacyCommitRetained

  datatype BlockReason =
    | CleanupStateMismatch
    | WorktreeInspectionFailed
    | WorktreeMissing
    | TimestampInvalid
    | RetentionWindowOpen
    | RunStartPending
    | ActiveRuns
    | OpenPlans
    | PendingApprovals
    | CommitOutcomeInvalid
    | NoChangeOutcomeInvalid
    | LegacyCommitMissing
    | OutcomeUnknown
    | WorktreePathUnsafe
    | WorktreeNotRegistered
    | WorktreeDirty
    | HeadMismatch
    | RetentionNoncanonical
    | RetentionInvalid
    | InspectionFailed

  datatype Verdict =
    | Skipped
    | NeedsAttention
    | BlockedBy(reason: BlockReason)
    | Candidate(policy: GcPolicy, head: string)

  datatype Target = Target(policy: GcPolicy, head: string, retention: bool)

  predicate HasOpenApproval(t: TaskState) {
    exists k | 0 <= k < |t.approvals| :: IsOpen(t.approvals[k])
  }

  function Age(f: Facts): int
    requires f.finalizedAt.Some?
  {
    if f.now < f.finalizedAt.value then 0 else f.now - f.finalizedAt.value
  }

  function TargetOf(t: TaskState): Result<Target, BlockReason> {
    if t.status == Cancelled then Ok(Target(CancelledClean, t.baseHead, false))
    else if t.outcome == Some("COMMIT") then
      if !Truthy(t.finalCommit) || t.finalCommit == Some(t.baseHead) then Err(CommitOutcomeInvalid)
      else Ok(Target(CommitRetained, t.finalCommit.value, true))
    else if t.outcome == Some("NO_CHANGE") then
      if t.finalCommit != Some(t.baseHead) || t.outcomeReason.None? || Blank(t.outcomeReason.value)
         || Truthy(t.retentionRef)
      then Err(NoChangeOutcomeInvalid)
      else Ok(Target(NoChangeAged, t.baseHead, false))
    else if t.outcome.None? then
      if !Truthy(t.finalCommit) then Err(LegacyCommitMissing)
      else if t.finalCommit == Some(t.baseHead) then Ok(Target(LegacyNoChange, t.finalCommit.value, false))
      else Ok(Target(LegacyCommitRetained, t.finalCommit.value, true))
    else Err(OutcomeUnknown)
  }

  /** The inspections of a finalised task's worktree, in order. */
  function WorktreeBlock(t: TaskState, f: Facts, target: Target): Option<BlockReason> {
    if f.path == PathUnsafe || f.path == PathMissing then Some(WorktreePathUnsafe)
    else if f.path == PathFails then Some(InspectionFailed)
    else if f.registration == NotRegistered then Some(WorktreeNotRegistered)
    else if f.registration == RegistrationFails then Some(InspectionFailed)
    else if f.changedFiles.None? then Some(InspectionFailed)
    else if f.changedFiles.value > 0 then Some(WorktreeDirty)
    else if f.head.None? then Some(InspectionFailed)
    else if f.head.value != target.head then Some(HeadMismatch)
    else if !target.retention then None
    else if t.retentionRef != Some(RetentionRef(t.id)) then Some(RetentionNoncanonical)
    else if f.retained != t.finalCommit then Some(RetentionInvalid)
    else None
  }

  /** What keeps a finalised task out of the preview's candidates before its worktree is looked at. */
  function EarlyBlock(t: TaskState, f: Facts, minAge: nat): Option<BlockReason> {
    if f.inspectionFails then Some(WorktreeInspectionFailed)
    else if !f.present then Some(WorktreeMissing)
    else if f.finalizedAt.None? then Some(TimestampInvalid)
    else if Age(f) < minAge then Some(RetentionWindowOpen)
    else if t.pending != [] then Some(RunStartPending)
    else if f.activeRuns > 0 then Some(ActiveRuns)
    else if f.openPlans > 0 then Some(OpenPlans)
    else if HasOpenApproval(t) then Some(PendingApprovals)
    else None
  }

  function Verdicted(t: TaskState, f: Facts, minAge: nat): Verdict {
    if t.status == Active then (if f.stale then NeedsAttention else Skipped)
    else if t.cleaned then (if f.present then BlockedBy(CleanupStateMismatch) else Skipped)
    else if EarlyBlock(t, f, minAge).Some? then BlockedBy(EarlyBlock(t, f, minAge).value)
    else if TargetOf(t).Err? then BlockedBy(TargetOf(t).error)
    else
      var target := TargetOf(t).value;
      var late := WorktreeBlock(t, f, target);
      if late.Some? then BlockedBy(late.value) else Candidate(target.policy, target.head)
  }

  // ----- The cleanup -----

  datatype CleanupError =
    | TaskNotFinalized
    | StartPending
    | CompletionMetadataInvalid
    | NotRetained
    | PathUnsafeOrMissing
    | WorktreeNotRegisteredError
    | Dirty
    | HeadChanged
    | GitFails
    | SafetyRefConflict
    | HeadLocked

  function MetadataRefusal(t: TaskState, f: Facts): Option<CleanupError> {
    var legacyCommit := t.outcome.None? && Truthy(t.finalCommit) && t.finalCommit != Some(t.baseHead);
    if t.outcome == Some("COMMIT") && (!Truthy(t.finalCommit) || t.finalCommit == Some(t.baseHead))
    then Some(CompletionMetadataInvalid)
    else if t.outcome == Some("NO_CHANGE")
            && (t.finalCommit != Some(t.baseHead) || t.outcomeReason.None? || Blank(t.outcomeReason.value)
                || Truthy(t.retentionRef))
    then Some(CompletionMetadataInvalid)
    else if t.outcome.None? && !Truthy(t.finalCommit) then Some(CompletionMetadataInvalid)
    else if t.outcome.Some? && t.outcome != Some("COMMIT") && t.outcome != Some("NO_CHANGE")
    then Some(CompletionMetadataInvalid)
    else if t.outcome == Some("COMMIT") || legacyCommit then
      if !Truthy(t.retentionRef) || !Truthy(t.finalCommit) then Some(NotRetained)
      else if t.retentionRef != Some(RetentionRef(t.id)) then Some(NotRetained)
      else if f.retained != t.finalCommit then Some(NotRetained)
      else None
    else None
  }

  function ExpectedHead(t: TaskState): string {
    if t.status == Cancelled || t.finalCommit.None? then t.baseHead else t.finalCommit.value
  }

  function WorktreeRefusal(t: TaskState, f: Facts): Option<CleanupError> {
    if f.path == PathUnsafe || f.path == PathMissing then Some(PathUnsafeOrMissing)
    else if f.path == PathFails then Some(GitFails)
    else if f.registration == NotRegistered then Some(WorktreeNotRegisteredError)
    else if f.registration == RegistrationFails then Some(GitFails)
    else if f.changedFiles.None? then Some(GitFails)
    else if f.changedFiles.value > 0 then Some(Dirty)
    else if f.head.None? then Some(GitFails)
    else if f.head.value != ExpectedHead(t) then Some(HeadChanged)
    else None
  }

  /** Every guard of a clean-only cleanup before it writes anything. */
  function GuardRefusal(t: TaskState, f: Facts): Option<CleanupError> {
    if t.status == Active then Some(TaskNotFinalized)
    else if t.pending != [] then Some(StartPending)
    else if t.status == Completed && MetadataRefusal(t, f).Some? then MetadataRefusal(t, f)
    else WorktreeRefusal(t, f)
  }

  datatype CleanupResult = AlreadyCleaned | CleanedUp(head: string) | CleanupFails(error: CleanupError)

  /** A clean-only cleanup of a task in one state. */
  function CleanedUpOr(t: TaskState, f: Facts): CleanupResult {
    if t.cleaned then AlreadyCleaned
    else if GuardRefusal(t, f).Some? then CleanupFails(GuardRefusal(t, f).value)
    else if f.safety.Some? && f.safety != Some(ExpectedHead(t)) then CleanupFails(SafetyRefConflict)
    else if f.present && f.headLocked then CleanupFails(HeadLocked)
    else CleanedUp(ExpectedHead(t))
  }

  /** The task and what is left of its worktree after a cleanup. The safety ref is written
      before the lock is tried, so it stays even then; and a lock that was found held is
      removed all the same. */
  function AfterCleanup(e: Entry): Entry {
    match CleanedUpOr(e.task, e.facts)
    case CleanedUp(head) =>
      Entry(e.task.(cleaned := true, gcSafetyRef := Some(GcSafetyRef(e.task.id))),
            e.facts.(safety := Some(head), present := false, path := PathMissing))
    case CleanupFails(HeadLocked) =>
      e.(facts := e.facts.(safety := Some(ExpectedHead(e.task)), headLocked := false))
    case _ => e
  }

  // ----- The same, said of the task and the facts themselves -----

  /** At least `minAge` has passed since the task was finalised; a clock that went back counts as none. */
  ghost predicate PastRetention(f: Facts, minAge: nat) {
    f.finalizedAt.Some? && (minAge == 0 || f.now - f.finalizedAt.value >= minAge)
  }

  ghost predicate AwaitsApproval(t: TaskState) {
    exists a :: a in t.approvals && a.status in {RequestStatus.Pending, RequestStatus.AwaitingUser}
  }

  /** Nothing holds a finalised task back before its completion record and its worktree are looked at. */
  ghost predicate Quiet(t: TaskState, f: Facts, minAge: nat) {
    && !f.inspectionFails && f.present && PastRetention(f, minAge)
    && t.pending == [] && f.activeRuns == 0 && f.openPlans == 0 && !AwaitsApproval(t)
  }

  ghost predicate HasCommit(t: TaskState) {
    t.finalCommit.Some? && t.finalCommit.value != ""
  }

  ghost predicate HasReason(t: TaskState) {
    t.outcomeReason.Some? && exists k :: 0 <= k < |t.outcomeReason.value| && !IsSpace(t.outcomeReason.value[k])
  }

  ghost predicate HasRef(t: TaskState) {
    t.retentionRef.Some? && t.retentionRef.value != ""
  }

  /** What a finalised task was finalised as; a commit of its own must be kept by its own ref. */
  ghost predicate EndedAs(t: TaskState, policy: GcPolicy) {
    match policy
    case CancelledClean => t.status == Cancelled
    case CommitRetained =>
      t.status == Completed && t.outcome == Some("COMMIT") && HasCommit(t) && t.finalCommit.value != t.baseHead
    case NoChangeAged =>
      t.status == Completed && t.outcome == Some("NO_CHANGE") && t.finalCommit == Some(t.baseHead) && HasReason(t)
      && !HasRef(t)
    case LegacyNoChange => t.status == Completed && t.outcome.None? && HasCommit(t) && t.finalCommit.value == t.baseHead
    case LegacyCommitRetained =>
      t.status == Completed && t.outcome.None? && HasCommit(t) && t.finalCommit.value != t.baseHead
  }

  ghost predicate Retains(t: TaskState, f: Facts) {
    t.retentionRef == Some("refs/agentdock/tasks/" + t.id) && f.retained == t.finalCommit
  }

  ghost predicate Fits(t: TaskState, f: Facts, policy: GcPolicy) {
    && EndedAs(t, policy)
    && (policy == CommitRetained || policy == LegacyCommitRetained ==> Retains(t, f))
  }

  /** The commit the worktree must be on. */
  ghost function HeadFor(t: TaskState, policy: GcPolicy): Option<string> {
    if policy == CancelledClean || policy == NoChangeAged then Some(t.baseHead) else t.finalCommit
  }

  /** The worktree is where and what it should be: its own directory, registered, clean, on this commit. */
  ghost predicate WorktreeOn(f: Facts, head: string) {
    f.path == PathOk && f.registration == Registered && f.changedFiles == Some(0) && f.head == Some(head)
  }

  lemma {:induction false} ApprovalsMean(t: TaskState)
    ensures HasOpenApproval(t) <==> AwaitsApproval(t)
  {
    if HasOpenApproval(t) {
      var k :| 0 <= k < |t.approvals| && IsOpen(t.approvals[k]);
      assert t.approvals[k] in t.approvals;
    }
  }

  lemma {:induction false} EarlyMeans(t: TaskState, f: Facts, minAge: nat)
    ensures EarlyBlock(t, f, minAge).None? <==> Quiet(t, f, minAge)
  {
    ApprovalsMean(t);
  }

  lemma {:induction false} TargetMeans(t: TaskState)
    requires t.status != Active
    ensures TargetOf(t).Ok? ==>
      var target := TargetOf(t).value;
      && EndedAs(t, target.policy) && HeadFor(t, target.policy) == Some(target.head)
      && (target.retention <==> target.policy == CommitRetained || target.policy == LegacyCommitRetained)
    ensures forall policy | EndedAs(t, policy) :: TargetOf(t).Ok? && TargetOf(t).value.policy == policy
  {
  }

  lemma {:induction false} WorktreeMeans(t: TaskState, f: Facts, target: Target)
    ensures WorktreeBlock(t, f, target).None? <==> WorktreeOn(f, target.head) && (target.retention ==> Retains(t, f))
  {
  }

  /** A task is a candidate exactly when it is finalised and not cleaned, nothing holds it back, what
      it was finalised as is kept, and its worktree is clean and on that commit. */
  lemma {:induction false} CandidateExactly(t: TaskState, f: Facts, minAge: nat, policy: GcPolicy, head: string)
    ensures Verdicted(t, f, minAge) == Candidate(policy, head) <==> MayCollect(t, f, minAge, policy, head)
  {
    if t.status != Active {
      EarlyMeans(t, f, minAge);
      TargetMeans(t);
      if TargetOf(t).Ok? {
        WorktreeMeans(t, f, TargetOf(t).value);
      }
    }
  }

  /** A finalised task whose worktree may be collected. */
  ghost predicate MayCollect(t: TaskState, f: Facts, minAge: nat, policy: GcPolicy, head: string) {
    && t.status != Active && !t.cleaned && Quiet(t, f, minAge)
    && Fits(t, f, policy) && HeadFor(t, policy) == Some(head) && WorktreeOn(f, head)
  }

  /** An unfinalised task is never listed as blocked; it needs attention exactly when it is stale. */
  lemma {:induction false} OthersExactly(t: TaskState, f: Facts, minAge: nat)
    ensures Verdicted(t, f, minAge) == NeedsAttention <==> t.status == Active && f.stale
    ensures Verdicted(t, f, minAge) == Skipped <==>
      (t.status == Active && !f.stale) || (t.status != Active && t.cleaned && !f.present)
    ensures Verdicted(t, f, minAge) == BlockedBy(CleanupStateMismatch) <==>
      t.status != Active && t.cleaned && f.present
  {
  }

  /** Which of the early reasons holds a task back: the first that applies. */
  ghost predicate HeldEarly(t: TaskState, f: Facts, minAge: nat, reason: BlockReason) {
    var seen := !f.inspectionFails && f.present;
    var aged := seen && PastRetention(f, minAge);
    match reason
    case WorktreeInspectionFailed => f.inspectionFails
    case WorktreeMissing => !f.inspectionFails && !f.present
    case TimestampInvalid => seen && f.finalizedAt.None?
    case RetentionWindowOpen => seen && f.finalizedAt.Some? && !PastRetention(f, minAge)
    case RunStartPending => aged && t.pending != []
    case ActiveRuns => aged && t.pending == [] && f.activeRuns > 0
    case OpenPlans => aged && t.pending == [] && f.activeRuns == 0 && f.openPlans > 0
    case PendingApprovals =>
      aged && t.pending == [] && f.activeRuns == 0 && f.openPlans == 0 && AwaitsApproval(t)
    case _ => false
  }

  /** Which defect of its completion record holds a completed task back. */
  ghost predicate HeldByRecord(t: TaskState, reason: BlockReason) {
    && t.status == Completed && (forall policy :: !EndedAs(t, policy))
    && match reason
       case CommitOutcomeInvalid => t.outcome == Some("COMMIT")
       case NoChangeOutcomeInvalid => t.outcome == Some("NO_CHANGE")
       case LegacyCommitMissing => t.outcome.None?
       case OutcomeUnknown => t.outcome.Some? && t.outcome.value != "COMMIT" && t.outcome.value != "NO_CHANGE"
       case _ => false
  }

  /** Which inspection of the worktree, or of the ref of a commit, holds a task back. */
  ghost predicate HeldLate(t: TaskState, f: Facts, policy: GcPolicy, reason: BlockReason) {
    var registered := f.path == PathOk && f.registration == Registered;
    var clean := registered && f.changedFiles == Some(0);
    var on := clean && f.head.Some? && f.head == HeadFor(t, policy);
    var kept := policy == CommitRetained || policy == LegacyCommitRetained;
    match reason
    case WorktreePathUnsafe => f.path == PathUnsafe || f.path == PathMissing
    case WorktreeNotRegistered => f.path == PathOk && f.registration == NotRegistered
    case WorktreeDirty => registered && f.changedFiles.Some? && f.changedFiles.value > 0
    case HeadMismatch => clean && f.head.Some? && f.head != HeadFor(t, policy)
    case InspectionFailed =>
      || f.path == PathFails || (f.path == PathOk && f.registration == RegistrationFails)
      || (registered && f.changedFiles.None?) || (clean && f.head.None?)
    case RetentionNoncanonical => on && kept && t.retentionRef != Some("refs/agentdock/tasks/" + t.id)
    case RetentionInvalid =>
      on && kept && t.retentionRef == Some("refs/agentdock/tasks/" + t.id) && f.retained != t.finalCommit
    case _ => false
  }

  lemma {:induction false} EarlyReason(t: TaskState, f: Facts, minAge: nat, reason: BlockReason)
    ensures EarlyBlock(t, f, minAge) == Some(reason) <==> HeldEarly(t, f, minAge, reason)
  {
    ApprovalsMean(t);
  }

  lemma {:induction false} RecordReason(t: TaskState, reason: BlockReason)
    requires t.status != Active
    ensures TargetOf(t) == Err(reason) <==> HeldByRecord(t, reason)
  {
    TargetMeans(t);
  }

  lemma {:induction false} LateReason(t: TaskState, f: Facts, reason: BlockReason)
    requires t.status != Active && TargetOf(t).Ok?
    ensures WorktreeBlock(t, f, TargetOf(t).value) == Some(reason) <==> HeldLate(t, f, TargetOf(t).value.policy, reason)
  {
    TargetMeans(t);
  }

  /** What a finalised task that still has its worktree is blocked by. */
  lemma {:induction false} BlockedExactly(t: TaskState, f: Facts, minAge: nat, reason: BlockReason)
    requires t.status != Active && !t.cleaned
    ensures Verdicted(t, f, minAge) == BlockedBy(reason) <==> Held(t, f, minAge, reason)
  {
    EarlyMeans(t, f, minAge);
    EarlyReason(t, f, minAge, reason);
    RecordReason(t, reason);
    TargetMeans(t);
    if TargetOf(t).Ok? {
      LateReason(t, f, reason);
      assert EndedAs(t, TargetOf(t).value.policy);
    }
  }

  /** What a verdict says of a task. */
  ghost predicate Judges(t: TaskState, f: Facts, minAge: nat, v: Verdict) {
    match v
    case Candidate(policy, head) => MayCollect(t, f, minAge, policy, head)
    case NeedsAttention => t.status == Active && f.stale
    case Skipped => (t.status == Active && !f.stale) || (t.status != Active && t.cleaned && !f.present)
    case BlockedBy(reason) =>
      && t.status != Active
      && if t.cleaned then f.present && reason == CleanupStateMismatch else Held(t, f, minAge, reason)
  }

  ghost predicate Held(t: TaskState, f: Facts, minAge: nat, reason: BlockReason) {
    || HeldEarly(t, f, minAge, reason)
    || (Quiet(t, f, minAge) && HeldByRecord(t, reason))
    || (Quiet(t, f, minAge) && exists policy :: EndedAs(t, policy) && HeldLate(t, f, policy, reason))
  }

  lemma {:induction false} VerdictMeans(t: TaskState, f: Facts, minAge: nat)
    ensures Judges(t, f, minAge, Verdicted(t, f, minAge))
  {
    match Verdicted(t, f, minAge) {
      case Candidate(policy, head) => CandidateExactly(t, f, minAge, policy, head);
      case BlockedBy(reason) =>
        if !t.cleaned {
          BlockedExactly(t, f, minAge, reason);
        }
      case _ =>
    }
  }

  // ----- The cleanup, said of the task and the facts themselves -----

  /** Why a cleanup of a task that is not cleaned yet fails before it writes anything. */
  ghost predicate CleanupHeld(t: TaskState, f: Facts, e: CleanupError) {
    var final := t.status != Active && t.pending == [];
    var recorded := final && (t.status == Completed ==> exists policy :: EndedAs(t, policy));
    var kept := recorded && forall policy | EndedAs(t, policy) :: Fits(t, f, policy);
    var registered := kept && f.path == PathOk && f.registration == Registered;
    var clean := registered && f.changedFiles == Some(0);
    match e
    case TaskNotFinalized => t.status == Active
    case StartPending => t.status != Active && t.pending != []
    case CompletionMetadataInvalid => final && !recorded
    case NotRetained => recorded && !kept
    case PathUnsafeOrMissing => kept && (f.path == PathUnsafe || f.path == PathMissing)
    case WorktreeNotRegisteredError => kept && f.path == PathOk && f.registration == NotRegistered
    case Dirty => registered && f.changedFiles.Some? && f.changedFiles.value > 0
    case HeadChanged => clean && f.head.Some? && forall policy | EndedAs(t, policy) :: f.head != HeadFor(t, policy)
    case GitFails =>
      && kept
      && (|| f.path == PathFails || (f.path == PathOk && f.registration == RegistrationFails)
          || (registered && f.changedFiles.None?) || (clean && f.head.None?))
    case _ => false
  }

  /** Every guard passes. */
  ghost predicate MayClean(t: TaskState, f: Facts, policy: GcPolicy) {
    && t.status != Active && t.pending == [] && Fits(t, f, policy)
    && HeadFor(t, policy).Some? && WorktreeOn(f, HeadFor(t, policy).value)
  }

  lemma {:induction false} PoliciesExclude(t: TaskState, a: GcPolicy, b: GcPolicy)
    requires EndedAs(t, a) && EndedAs(t, b)
    ensures a == b
  {
  }

  lemma {:induction false} ReasonMeansText(t: TaskState)
    ensures HasReason(t) <==> t.outcomeReason.Some? && !Blank(t.outcomeReason.value)
  {
  }

  lemma {:induction false} MetadataMeans(t: TaskState, f: Facts)
    requires t.status == Completed && (f.retained.Some? ==> f.retained.value != "")
    ensures MetadataRefusal(t, f) == Some(CompletionMetadataInvalid) <==> forall policy :: !EndedAs(t, policy)
    ensures MetadataRefusal(t, f) == Some(NotRetained) <==> exists policy :: EndedAs(t, policy) && !Fits(t, f, policy)
    ensures MetadataRefusal(t, f).Some? ==> MetadataRefusal(t, f).value in {CompletionMetadataInvalid, NotRetained}
  {
    ReasonMeansText(t);
    assert EndedAs(t, CommitRetained) || EndedAs(t, NoChangeAged) || EndedAs(t, LegacyNoChange)
        || EndedAs(t, LegacyCommitRetained) || forall policy :: !EndedAs(t, policy);
  }

  lemma {:induction false} ExpectedMeans(t: TaskState, policy: GcPolicy)
    requires EndedAs(t, policy)
    ensures HeadFor(t, policy) == Some(ExpectedHead(t))
  {
  }

  lemma {:induction false} FinalMeans(t: TaskState, f: Facts, policy: GcPolicy)
    requires EndedAs(t, policy) && (f.retained.Some? ==> f.retained.value != "")
    ensures t.status != Active
    ensures t.status == Completed ==> (MetadataRefusal(t, f).None? <==> Fits(t, f, policy))
    ensures t.status == Completed && !Fits(t, f, policy) ==> MetadataRefusal(t, f) == Some(NotRetained)
    ensures t.status == Cancelled ==> Fits(t, f, policy)
    ensures forall other | EndedAs(t, other) :: other == policy
  {
    if t.status == Completed {
      MetadataMeans(t, f);
    }
    forall other | EndedAs(t, other) ensures other == policy {
      PoliciesExclude(t, other, policy);
    }
  }

  /** The first guard that fails, of a task that ended in one of the known ways. */
  lemma {:induction false} GuardOfEnded(t: TaskState, f: Facts, policy: GcPolicy, e: CleanupError)
    requires EndedAs(t, policy) && FactsOk(f)
    ensures GuardRefusal(t, f) == Some(e) <==> CleanupHeld(t, f, e)
    ensures GuardRefusal(t, f).None? <==> MayClean(t, f, policy)
  {
    FinalMeans(t, f, policy);
    ExpectedMeans(t, policy);
  }

  lemma {:induction false} EndsSomehow(t: TaskState)
    ensures t.status == Cancelled ==> EndedAs(t, CancelledClean)
    ensures t.status == Active ==> forall policy :: !EndedAs(t, policy)
  {
  }

  /** Every guard of a cleanup, and which of them refuses it. */
  lemma {:induction false} GuardExactly(t: TaskState, f: Facts, e: CleanupError)
    requires FactsOk(f)
    ensures GuardRefusal(t, f) == Some(e) <==> CleanupHeld(t, f, e)
    ensures GuardRefusal(t, f).None? <==> exists policy :: MayClean(t, f, policy)
  {
    EndsSomehow(t);
    if policy :| EndedAs(t, policy) {
      GuardOfEnded(t, f, policy, e);
      FinalMeans(t, f, policy);
    } else if t.status == Completed {
      MetadataMeans(t, f);
    }
  }

  /** What a cleanup comes to, and what it leaves. */
  ghost predicate Cleans(e: Entry, c: CleanupResult, after: Entry) {
    var t, f := e.task, e.facts;
    && (c == AlreadyCleaned <==> t.cleaned)
    && (forall error | error != SafetyRefConflict && error != HeadLocked ::
          c == CleanupFails(error) <==> !t.cleaned && CleanupHeld(t, f, error))
    && (forall policy | MayClean(t, f, policy) && !t.cleaned ::
          var head := HeadFor(t, policy).value;
          if f.safety.Some? && f.safety.value != head then c == CleanupFails(SafetyRefConflict)
          else if f.headLocked then c == CleanupFails(HeadLocked) else c == CleanedUp(head))
    && (c.CleanedUp? || c == CleanupFails(SafetyRefConflict) || c == CleanupFails(HeadLocked) ==>
          exists policy :: MayClean(t, f, policy))
    && after ==
         match c
         case CleanedUp(head) =>
           Entry(t.(cleaned := true, gcSafetyRef := Some("refs/agentdock/gc-safety/" + t.id)),
                 f.(safety := Some(head), present := false, path := PathMissing))
         case CleanupFails(HeadLocked) => Entry(t, f.(safety := f.head, headLocked := false))
         case _ => e
  }

  lemma {:induction false} CleanupOfFit(e: Entry, policy: GcPolicy)
    requires FactsOk(e.facts) && MayClean(e.task, e.facts, policy) && !e.task.cleaned
    ensures
      var f, head := e.facts, HeadFor(e.task, policy).value;
      && head == ExpectedHead(e.task) && f.head == Some(head)
      && CleanedUpOr(e.task, f) ==
           if f.safety.Some? && f.safety.value != head then CleanupFails(SafetyRefConflict)
           else if f.headLocked then CleanupFails(HeadLocked) else CleanedUp(head)
  {
    ExpectedMeans(e.task, policy);
    GuardExactly(e.task, e.facts, Dirty);
  }

  lemma {:induction false} CleanupMeans(e: Entry)
    requires FactsOk(e.facts)
    ensures Cleans(e, CleanedUpOr(e.task, e.facts), AfterCleanup(e))
  {
    var t, f := e.task, e.facts;
    forall error ensures GuardRefusal(t, f) == Some(error) <==> CleanupHeld(t, f, error) {
      GuardExactly(t, f, error);
    }
    GuardExactly(t, f, Dirty);
    if !t.cleaned {
      forall policy | MayClean(t, f, policy)
        ensures
          var head := HeadFor(t, policy).value;
          && head == ExpectedHead(t) && f.head == Some(head)
          && CleanedUpOr(t, f) ==
               if f.safety.Some? && f.safety.value != head then CleanupFails(SafetyRefConflict)
               else if f.headLocked then CleanupFails(HeadLocked) else CleanedUp(head)
      {
        CleanupOfFit(e, policy);
      }
    }
  }

  // ----- Agreement -----

  /** The two procedures agree on every task and every state: a task is a candidate exactly when it is
      finalised and not cleaned, its worktree is there and could be looked at, its retention window is over,
      no start is reserved, no run and no plan is active, no approval is open, and every guard of the
      cleanup passes; and then both expect the same head. */
  lemma {:induction false} PreviewAgreesWithCleanup(t: TaskState, f: Facts, minAge: nat)
    requires FactsOk(f)
    ensures Verdicted(t, f, minAge).Candidate? <==>
      && t.status != Active && !t.cleaned && f.present && !f.inspectionFails
      && f.finalizedAt.Some? && (minAge == 0 || f.now - f.finalizedAt.value >= minAge)
      && t.pending == [] && f.activeRuns == 0 && f.openPlans == 0
      && (forall a | a in t.approvals :: a.status in {RequestStatus.Approved, RequestStatus.Denied})
      && exists policy :: MayClean(t, f, policy)
    ensures Verdicted(t, f, minAge).Candidate? ==>
      MayClean(t, f, Verdicted(t, f, minAge).policy) && Verdicted(t, f, minAge).head == ExpectedHead(t)
  {
    SettledMeans(t);
    var v := Verdicted(t, f, minAge);
    if v.Candidate? {
      CandidateExactly(t, f, minAge, v.policy, v.head);
      ExpectedMeans(t, v.policy);
      assert MayClean(t, f, v.policy);
    } else if policy :| MayClean(t, f, policy) {
      CandidateExactly(t, f, minAge, policy, HeadFor(t, policy).value);
    }
  }

  lemma {:induction false} SettledMeans(t: TaskState)
    ensures AwaitsApproval(t) <==>
      !forall a | a in t.approvals :: a.status in {RequestStatus.Approved, RequestStatus.Denied}
  {
    if a :| a in t.approvals && a.status !in {RequestStatus.Approved, RequestStatus.Denied} {
      assert a.status.Pending? || a.status.AwaitingUser?;
    }
    if a :| a in t.approvals && a.status in {RequestStatus.Pending, RequestStatus.AwaitingUser} {
      assert a.status !in {RequestStatus.Approved, RequestStatus.Denied};
    }
  }

  /** So the only ways a candidate's cleanup fails, in the same state, are a safety ref that
      names another commit and a held HEAD lock, in this order. */
  lemma {:induction false} CandidateCleansUp(t: TaskState, f: Facts, minAge: nat)
    requires FactsOk(f) && Verdicted(t, f, minAge).Candidate?
    ensures CleanedUpOr(t, f) ==
      if f.safety.Some? && f.safety != Some(Verdicted(t, f, minAge).head) then CleanupFails(SafetyRefConflict)
      else if f.headLocked then CleanupFails(HeadLocked)
      else CleanedUp(Verdicted(t, f, minAge).head)
  {
    PreviewAgreesWithCleanup(t, f, minAge);
    CleanupOfFit(Entry(t, f), Verdicted(t, f, minAge).policy);
  }

  // ----- Collecting -----

  datatype Disposition = WasCleaned | Collected(head: string) | Failed(error: Option<CleanupError>)

  datatype GcError = SnapshotChanged | TasksRequired | NotEligible

  /** What the preview lists for a candidate. */
  datatype Proposal = Proposal(
    id: string,
    status: Status,
    outcome: Option<string>,
    updatedAt: int,
    finalizedAt: Option<int>,
    finalCommit: Option<string>,
    retentionRef: Option<string>,
    present: bool,
    bytes: nat,
    policy: GcPolicy)

  function ProposalOf(id: string, e: Entry, policy: GcPolicy): Proposal {
    Proposal(id, e.task.status, e.task.outcome, e.facts.updatedAt, e.facts.finalizedAt, e.task.finalCommit,
             e.task.retentionRef, e.facts.present, e.facts.bytes, policy)
  }

  /** The token is a hash of these; here it is what it hashes. */
  datatype Token = Token(minAge: nat, proposals: seq<Proposal>)

  datatype Report = Report(candidates: seq<Proposal>, blocked: seq<(string, BlockReason)>, attention: seq<string>)

  /** A report with one more task's verdict. */
  function Reported(r: Report, id: string, e: Entry, v: Verdict): Report {
    match v
    case Candidate(policy, _) => r.(candidates := r.candidates + [ProposalOf(id, e, policy)])
    case BlockedBy(reason) => r.(blocked := r.blocked + [(id, reason)])
    case NeedsAttention => r.(attention := r.attention + [id])
    case Skipped => r
  }

  function VerdictOf(e: Entry, minAge: nat): Verdict {
    Verdicted(e.task, e.facts, minAge)
  }

  function ReportOf(ids: seq<string>, entries: map<string, Entry>, minAge: nat): Report
    requires forall id | id in ids :: id in entries
  {
    if ids == [] then Report([], [], [])
    else
      var last := ids[|ids| - 1];
      Reported(ReportOf(ids[..|ids| - 1], entries, minAge), last, entries[last], VerdictOf(entries[last], minAge))
  }

  /** Entries are filed under their task's identity. */
  ghost predicate Filed(entries: map<string, Entry>) {
    forall id | id in entries :: entries[id].task.id == id && FactsOk(entries[id].facts)
  }

  method PreviewOne(t: TaskState, f: Facts, minAge: nat) returns (v: Verdict)
    ensures v == Verdicted(t, f, minAge) && Judges(t, f, minAge, v)
  {
    VerdictMeans(t, f, minAge);
    if t.status == Active {
      return if f.stale then NeedsAttention else Skipped;
    }
    if t.cleaned {
      return if f.present then BlockedBy(CleanupStateMismatch) else Skipped;
    }
    var early := EarlyBlock(t, f, minAge);
    if early.Some? {
      return BlockedBy(early.value);
    }
    var target := TargetOf(t);
    if target.Err? {
      return BlockedBy(target.error);
    }
    var late := WorktreeBlock(t, f, target.value);
    if late.Some? {
      return BlockedBy(late.value);
    }
    return Candidate(target.value.policy, target.value.head);
  }

  /** What is listed of a candidate is what is known of it, and it may be collected. */
  ghost predicate Proposes(p: Proposal, ids: seq<string>, entries: map<string, Entry>, minAge: nat) {
    && p.id in ids && p.id in entries
    && var t, f := entries[p.id].task, entries[p.id].facts;
       && p.status == t.status && p.outcome == t.outcome && p.finalCommit == t.finalCommit
       && p.retentionRef == t.retentionRef && p.updatedAt == f.updatedAt && p.finalizedAt == f.finalizedAt
       && p.present == f.present && p.bytes == f.bytes
       && exists head :: MayCollect(t, f, minAge, p.policy, head)
  }

  lemma {:induction false} ReportProposes(ids: seq<string>, entries: map<string, Entry>, minAge: nat)
    requires forall id | id in ids :: id in entries
    ensures forall p | p in ReportOf(ids, entries, minAge).candidates :: Proposes(p, ids, entries, minAge)
  {
    if ids != [] {
      var front, last := ids[..|ids| - 1], ids[|ids| - 1];
      ReportProposes(front, entries, minAge);
      VerdictMeans(entries[last].task, entries[last].facts, minAge);
      forall p | p in ReportOf(ids, entries, minAge).candidates ensures Proposes(p, ids, entries, minAge) {
        assert p in ReportOf(front, entries, minAge).candidates ==> Proposes(p, front, entries, minAge);
      }
    }
  }

  method Preview(ids: seq<string>, entries: map<string, Entry>, minAge: nat) returns (r: Report)
    requires forall id | id in ids :: id in entries
    ensures r == ReportOf(ids, entries, minAge)
    ensures forall p | p in r.candidates :: Proposes(p, ids, entries, minAge)
  {
    ReportProposes(ids, entries, minAge);
    r := Report([], [], []);
    var i := 0;
    while i < |ids|
      invariant 0 <= i <= |ids| && r == ReportOf(ids[..i], entries, minAge)
    {
      var e := entries[ids[i]];
      assert ids[..i + 1][..i] == ids[..i];
      var v := PreviewOne(e.task, e.facts, minAge);
      match v {
        case Candidate(policy, _) => r := r.(candidates := r.candidates + [ProposalOf(ids[i], e, policy)]);
        case BlockedBy(reason) => r := r.(blocked := r.blocked + [(ids[i], reason)]);
        case NeedsAttention => r := r.(attention := r.attention + [ids[i]]);
        case Skipped =>
      }
      i := i + 1;
    }
    assert ids[..i] == ids;
  }

  function CollectedOne(e: Entry): Disposition {
    if e.facts.activeRuns > 0 then Failed(None)
    else
      match CleanedUpOr(e.task, e.facts)
      case AlreadyCleaned => WasCleaned
      case CleanedUp(head) => Collected(head)
      case CleanupFails(error) => Failed(Some(error))
  }

  function AfterCollecting(e: Entry): Entry {
    if e.facts.activeRuns > 0 then e else AfterCleanup(e)
  }

  predicate Proposed(proposals: seq<Proposal>, id: string) {
    exists k | 0 <= k < |proposals| :: proposals[k].id == id
  }

  /** The completion record of a completed task, checked again before anything is removed. */
  method CheckMetadata(t: TaskState, f: Facts) returns (refused: Option<CleanupError>)
    ensures refused == MetadataRefusal(t, f)
    ensures t.status == Completed && FactsOk(f) ==>
      && (refused == Some(CompletionMetadataInvalid) <==> forall policy :: !EndedAs(t, policy))
      && (refused == Some(NotRetained) <==> exists policy :: EndedAs(t, policy) && !Fits(t, f, policy))
      && (refused.None? <==> exists policy :: Fits(t, f, policy))
  {
    if t.status == Completed && FactsOk(f) {
      MetadataMeans(t, f);
    }
    var looksLikeLegacyCommit := t.outcome.None? && Truthy(t.finalCommit) && t.finalCommit != Some(t.baseHead);
    var requiresRetention := t.outcome == Some("COMMIT") || looksLikeLegacyCommit;
    if t.outcome == Some("COMMIT") && (!Truthy(t.finalCommit) || t.finalCommit == Some(t.baseHead)) {
      return Some(CompletionMetadataInvalid);
    }
    if t.outcome == Some("NO_CHANGE") {
      if t.finalCommit != Some(t.baseHead) || t.outcomeReason.None? || Blank(t.outcomeReason.value)
         || Truthy(t.retentionRef)
      {
        return Some(CompletionMetadataInvalid);
      }
    } else if t.outcome.None? {
      if !Truthy(t.finalCommit) {
        return Some(CompletionMetadataInvalid);
      }
    } else if t.outcome != Some("COMMIT") {
      return Some(CompletionMetadataInvalid);
    }
    if requiresRetention {
      if !Truthy(t.retentionRef) || !Truthy(t.finalCommit) {
        return Some(NotRetained);
      }
      if t.retentionRef != Some(RetentionRef(t.id)) {
        return Some(NotRetained);
      }
      if f.retained != t.finalCommit {
        return Some(NotRetained);
      }
    }
    return None;
  }

  /** A clean-only cleanup with nothing else going on. */
  method Cleanup(e: Entry) returns (c: CleanupResult, after: Entry)
    ensures c == CleanedUpOr(e.task, e.facts) && after == AfterCleanup(e)
    ensures FactsOk(e.facts) ==> Cleans(e, c, after)
  {
    if FactsOk(e.facts) {
      CleanupMeans(e);
    }
    var t, f := e.task, e.facts;
    after := e;
    if t.cleaned {
      return AlreadyCleaned, after;
    }
    if t.status != Completed && t.status != Cancelled {
      return CleanupFails(TaskNotFinalized), after;
    }
    if |t.pending| > 0 {
      return CleanupFails(StartPending), after;
    }
    if t.status == Completed {
      var refused := CheckMetadata(t, f);
      if refused.Some? {
        return CleanupFails(refused.value), after;
      }
    }
    var unfit := WorktreeRefusal(t, f);
    if unfit.Some? {
      return CleanupFails(unfit.value), after;
    }
    var expected := ExpectedHead(t);
    if f.safety.Some? && f.safety.value != expected {
      return CleanupFails(SafetyRefConflict), after;
    }
    f := f.(safety := Some(expected));
    if f.present {
      if f.headLocked {
        f := f.(headLocked := false);
        return CleanupFails(HeadLocked), Entry(t, f);
      }
    }
    f := f.(present := false, path := PathMissing);
    t := t.(cleaned := true, gcSafetyRef := Some(GcSafetyRef(t.id)));
    return CleanedUp(expected), Entry(t, f);
  }

  /** A task with an active run is left alone; of the others, what the cleanup came to. */
  ghost predicate Disposes(e: Entry, d: Disposition, after: Entry) {
    match d
    case WasCleaned => e.facts.activeRuns == 0 && Cleans(e, AlreadyCleaned, after)
    case Collected(head) => e.facts.activeRuns == 0 && Cleans(e, CleanedUp(head), after)
    case Failed(None) => e.facts.activeRuns > 0 && after == e
    case Failed(Some(error)) => e.facts.activeRuns == 0 && Cleans(e, CleanupFails(error), after)
  }

  lemma {:induction false} CollectedMeans(e: Entry)
    requires FactsOk(e.facts)
    ensures Disposes(e, CollectedOne(e), AfterCollecting(e))
  {
    CleanupMeans(e);
  }

  method CollectOne(e: Entry) returns (d: Disposition, after: Entry)
    ensures d == CollectedOne(e) && after == AfterCollecting(e)
    ensures FactsOk(e.facts) ==> Disposes(e, d, after)
  {
    if FactsOk(e.facts) {
      CollectedMeans(e);
    }
    if e.facts.activeRuns > 0 {
      return Failed(None), e;
    }
    if e.task.cleaned {
      return WasCleaned, e;
    }
    var cleanup;
    cleanup, after := Cleanup(e);
    d := match cleanup
      case AlreadyCleaned => WasCleaned
      case CleanedUp(head) => Collected(head)
      case CleanupFails(error) => Failed(Some(error));
  }

  /** What collecting did to the wanted tasks, and that it did nothing else. */
  ghost predicate Collection(
    wanted: seq<string>, entries: map<string, Entry>, results: seq<Disposition>, after: map<string, Entry>)
  {
    && |results| == |wanted| && after.Keys == entries.Keys
    && (forall k | 0 <= k < |wanted| :: wanted[k] in entries)
    && (forall k | 0 <= k < |wanted| :: results[k] == CollectedOne(entries[wanted[k]]))
    && (forall id | id in entries ::
          after[id] == if id in wanted then AfterCollecting(entries[id]) else entries[id])
  }

  /** Each wanted task has been disposed of once, and the others are as they were. */
  ghost predicate Handles(
    wanted: seq<string>, entries: map<string, Entry>, results: seq<Disposition>, after: map<string, Entry>)
  {
    && |results| == |wanted|
    && (forall k | 0 <= k < |wanted| :: HandledOne(wanted[k], entries, results[k], after))
    && (forall id | id in entries && id !in wanted :: id in after && after[id] == entries[id])
  }

  ghost predicate HandledOne(id: string, entries: map<string, Entry>, d: Disposition, after: map<string, Entry>) {
    id in entries && id in after && Disposes(entries[id], d, after[id])
  }

  lemma {:induction false} CollectionHandles(
    wanted: seq<string>, entries: map<string, Entry>, results: seq<Disposition>, after: map<string, Entry>)
    requires Collection(wanted, entries, results, after) && Filed(entries)
    ensures Handles(wanted, entries, results, after)
  {
    forall k | 0 <= k < |wanted| ensures HandledOne(wanted[k], entries, results[k], after) {
      assert FactsOk(entries[wanted[k]].facts);
      CollectedMeans(entries[wanted[k]]);
    }
  }

  lemma {:induction false} CollectionGrows(
    wanted: seq<string>, id: string, entries: map<string, Entry>, results: seq<Disposition>, after: map<string, Entry>)
    requires Collection(wanted, entries, results, after) && id in entries && id !in wanted
    ensures Collection(wanted + [id], entries, results + [CollectedOne(entries[id])],
                       after[id := AfterCollecting(entries[id])])
  {
  }

  method CollectAll(wanted: seq<string>, entries: map<string, Entry>)
    returns (results: seq<Disposition>, after: map<string, Entry>)
    requires forall i, j | 0 <= i < j < |wanted| :: wanted[i] != wanted[j]
    requires forall id | id in wanted :: id in entries
    ensures Collection(wanted, entries, results, after)
  {
    results, after := [], entries;
    var j := 0;
    while j < |wanted|
      invariant 0 <= j <= |wanted| && Collection(wanted[..j], entries, results, after)
    {
      assert wanted[j] !in wanted[..j] && wanted[..j + 1] == wanted[..j] + [wanted[j]];
      CollectionGrows(wanted[..j], wanted[j], entries, results, after);
      var d, e := CollectOne(after[wanted[j]]);
      results := results + [d];
      after := after[wanted[j] := e];
      j := j + 1;
    }
    assert wanted[..j] == wanted;
  }

  method AllProposed(wanted: seq<string>, proposals: seq<Proposal>) returns (ok: bool)
    ensures ok <==> forall id | id in wanted :: Proposed(proposals, id)
  {
    var i := 0;
    while i < |wanted|
      invariant 0 <= i <= |wanted| && forall k | 0 <= k < i :: Proposed(proposals, wanted[k])
    {
      if !Proposed(proposals, wanted[i]) {
        return false;
      }
      i := i + 1;
    }
    return true;
  }

  /** Collects the requested tasks, each of which must be a candidate of the snapshot the token names. */
  method Collect(ids: seq<string>, entries: map<string, Entry>, token: Token, requested: seq<string>)
    returns (r: Result<seq<Disposition>, GcError>, after: map<string, Entry>)
    requires forall id | id in ids :: id in entries
    ensures r == Err(SnapshotChanged) <==> token.proposals != ReportOf(ids, entries, token.minAge).candidates
    ensures r == Err(TasksRequired) <==>
      token.proposals == ReportOf(ids, entries, token.minAge).candidates && requested == []
    ensures r.Ok? <==>
      && token.proposals == ReportOf(ids, entries, token.minAge).candidates && requested != []
      && forall id | id in requested :: Proposed(token.proposals, id)
    ensures r.Err? ==> after == entries
    ensures r.Ok? ==> Collection(Deduplicated(requested), entries, r.value, after)
    ensures r.Ok? && Filed(entries) ==> Handles(Deduplicated(requested), entries, r.value, after)
    ensures r.Ok? ==>
      forall id | id in requested :: exists p: Proposal :: p.id == id && Proposes(p, ids, entries, token.minAge)
  {
    after := entries;
    var report := Preview(ids, entries, token.minAge);
    if report.candidates != token.proposals {
      return Err(SnapshotChanged), after;
    }
    var wanted := Deduplicated(requested);
    DeduplicatedKeeps(requested);
    assert requested != [] ==> requested[0] in wanted;
    if |wanted| == 0 {
      return Err(TasksRequired), after;
    }
    assert wanted[0] in requested;
    var eligible := AllProposed(wanted, report.candidates);
    if !eligible {
      return Err(NotEligible), after;
    }
    forall id | id in wanted ensures id in entries {
      ProposedIsListed(ids, entries, token.minAge, id);
    }
    forall id | id in requested ensures exists p: Proposal :: p.id == id && Proposes(p, ids, entries, token.minAge) {
      assert id in wanted;
      var k :| 0 <= k < |report.candidates| && report.candidates[k].id == id;
      assert report.candidates[k] in report.candidates;
    }
    var results;
    results, after := CollectAll(wanted, entries);
    if Filed(entries) {
      CollectionHandles(wanted, entries, results, after);
    }
    return Ok(results), after;
  }

  lemma {:induction false} ProposedIsListed(ids: seq<string>, entries: map<string, Entry>, minAge: nat, id: string)
    requires forall x | x in ids :: x in entries
    requires Proposed(ReportOf(ids, entries, minAge).candidates, id)
    ensures id in ids
  {
    if ids != [] {
      var front, last := ids[..|ids| - 1], ids[|ids| - 1];
      ReportPushed(ReportOf(front, entries, minAge), last, entries[last], VerdictOf(entries[last], minAge), id);
      if id != last {
        ProposedIsListed(front, entries, minAge, id);
      }
    }
  }

  predicate BlockedFor(blocked: seq<(string, BlockReason)>, id: string, reason: BlockReason) {
    exists k | 0 <= k < |blocked| :: blocked[k] == (id, reason)
  }

  /** A report lists exactly the tasks looked at: each under what was decided about it, and the
      skipped ones nowhere. */
  lemma {:induction false} ReportedExactly(ids: seq<string>, entries: map<string, Entry>, minAge: nat, id: string)
    requires id in entries && forall x | x in ids :: x in entries
    ensures
      var r, v := ReportOf(ids, entries, minAge), VerdictOf(entries[id], minAge);
      && (Proposed(r.candidates, id) <==> id in ids && v.Candidate?)
      && (forall reason :: BlockedFor(r.blocked, id, reason) <==> id in ids && v == BlockedBy(reason))
      && (id in r.attention <==> id in ids && v.NeedsAttention?)
  {
    if ids != [] {
      var front, last := ids[..|ids| - 1], ids[|ids| - 1];
      ReportedExactly(front, entries, minAge, id);
      assert ids == front + [last];
      ReportPushed(ReportOf(front, entries, minAge), last, entries[last], VerdictOf(entries[last], minAge), id);
    }
  }

  lemma {:induction false} ReportPushed(r: Report, last: string, e: Entry, v: Verdict, id: string)
    ensures
      var s := Reported(r, last, e, v);
      && (Proposed(s.candidates, id) <==> Proposed(r.candidates, id) || (id == last && v.Candidate?))
      && (forall reason :: BlockedFor(s.blocked, id, reason) <==>
            BlockedFor(r.blocked, id, reason) || (id == last && v == BlockedBy(reason)))
      && (id in s.attention <==> id in r.attention || (id == last && v.NeedsAttention?))
  {
    var s := Reported(r, last, e, v);
    if v.Candidate? {
      PushedProposal(r.candidates, ProposalOf(last, e, v.policy), id);
    }
    if v.BlockedBy? {
      forall reason
        ensures BlockedFor(s.blocked, id, reason) <==>
                BlockedFor(r.blocked, id, reason) || (id, reason) == (last, v.reason)
      {
        PushedBlock(r.blocked, (last, v.reason), id, reason);
      }
    }
  }

  lemma {:induction false} PushedProposal(proposals: seq<Proposal>, p: Proposal, id: string)
    ensures Proposed(proposals + [p], id) <==> Proposed(proposals, id) || p.id == id
  {
    var all := proposals + [p];
    assert all[|proposals|] == p;
    assert forall k | 0 <= k < |proposals| :: all[k] == proposals[k];
  }

  lemma {:induction false} PushedBlock(
    blocked: seq<(string, BlockReason)>, b: (string, BlockReason), id: string, reason: BlockReason)
    ensures BlockedFor(blocked + [b], id, reason) <==> BlockedFor(blocked, id, reason) || b == (id, reason)
  {
    var all := blocked + [b];
    assert all[|blocked|] == b;
    assert forall k | 0 <= k < |blocked| :: all[k] == blocked[k];
  }

  /** Collecting what a fresh preview proposes succeeds for every requested task, except
      where a safety ref names another commit or HEAD is locked. */
  lemma {:induction false} ProposedIsCollected(ids: seq<string>, entries: map<string, Entry>, minAge: nat, id: string)
    requires Filed(entries) && forall i | i in ids :: i in entries
    requires Proposed(ReportOf(ids, entries, minAge).candidates, id)
    ensures id in entries
    ensures
      var e := entries[id];
      CollectedOne(e) ==
        if e.facts.safety.Some? && e.facts.safety != Some(ExpectedHead(e.task)) then Failed(Some(SafetyRefConflict))
        else if e.facts.headLocked then Failed(Some(HeadLocked))
        else Collected(ExpectedHead(e.task))
  {
    ProposedIsListed(ids, entries, minAge, id);
    ReportedExactly(ids, entries, minAge, id);
    var e := entries[id];
    assert FactsOk(e.facts);
    PreviewAgreesWithCleanup(e.task, e.facts, minAge);
    CandidateCleansUp(e.task, e.facts, minAge);
  }
}
