/** The life of one task: reservations, runs, commits, evidence, approvals, and the
    two ways it is finalised. */
module Task {
  import opened Approval
  import opened Base
  import opened Evidence

  datatype Status = Active | Completed | Cancelled

  datatype Reservation = Reservation(process: string, owner: Option<string>)

  datatype TaskState = TaskState(
    id: string,
    baseHead: string,
    contract: Option<seq<string>>,
    status: Status,
    cleaned: bool,
    pending: seq<Reservation>,
    processes: seq<string>,
    approvals: seq<Request>,
    grants: seq<Grant>,
    evidence: seq<Record>,
    latestCommit: Option<string>,
    finalCommit: Option<string>,
    outcome: Option<string>,
    outcomeReason: Option<string>,
    retentionRef: Option<string>,
    verified: bool,
    gcSafetyRef: Option<string>)

  datatype TaskError =
    | InvalidProcessId
    | InvalidRuntimeId
    | NotActive
    | WorkspaceCleaned
    | ProcessStartPending
    | ReservationMissing
    | InvalidEvidenceKind
    | CommitRequired
    | CommitNotRetained
    | NoChangeHasCommit
    | NoChangeReasonRequired
    | MetadataInvalid
    | EvidenceFailed
    | EvidenceRequired
    | NotFinalized

  datatype Finish = Finish(
    finalCommit: Option<string>,
    outcome: Option<string>,
    reason: Option<string>,
    retentionRef: Option<string>)

  datatype Op =
    | ReserveStart(process: string, owner: Option<string>)
    | ReleaseStart(process: string)
    | AddProcess(process: string, reserved: bool)
    | RecordCommit(sha: string)
    | RecordEvidence(record: Record, normalize: string -> string)
    | ByApproval(a: ApprovalOp)
    | FinishTask(f: Finish)
    | CancelTask
    | RecordCleanup(gcRef: Option<string>)

  datatype ApprovalOp =
    | AuthorizeOp(policy: Policy, fingerprint: string, approvalId: string)
    | RespondOp(approvalId: string, decision: Option<Decision>)

  function RetentionRef(id: string): string {
    "refs/agentdock/tasks/" + id
  }

  function GcSafetyRef(id: string): string {
    "refs/agentdock/gc-safety/" + id
  }

  /** `proc_` and then 36 lower-case hexadecimal digits or dashes. */
  predicate IsProcessId(id: string) {
    && |id| == 41 && id[..5] == "proc_"
    && forall k | 5 <= k < 41 :: '0' <= id[k] <= '9' || 'a' <= id[k] <= 'f' || id[k] == '-'
  }

  function NewTask(id: string, baseHead: string, contract: Option<seq<string>>): TaskState {
    TaskState(id, baseHead, contract, Active, false, [], [], [], [], [], None, None, None, None, None, false, None)
  }

  function Required(t: TaskState): seq<string> {
    if t.contract.Some? then t.contract.value else []
  }

  // ----- When each operation is refused -----

  function InactiveRefusal(t: TaskState): Option<TaskError> {
    if t.status != Active then Some(NotActive)
    else if t.cleaned then Some(WorkspaceCleaned)
    else None
  }

  predicate IsPending(t: TaskState, process: string) {
    exists k | 0 <= k < |t.pending| :: t.pending[k].process == process
  }

  function OutcomeRefusal(t: TaskState, f: Finish): Option<TaskError> {
    if f.outcome == Some("COMMIT") then
      if !Truthy(f.finalCommit) || f.finalCommit == Some(t.baseHead) then Some(CommitRequired)
      else if f.retentionRef != Some(RetentionRef(t.id)) then Some(CommitNotRetained)
      else None
    else if f.outcome == Some("NO_CHANGE") then
      if f.finalCommit != Some(t.baseHead) then Some(NoChangeHasCommit)
      else if f.reason.None? || Blank(f.reason.value) then Some(NoChangeReasonRequired)
      else if Truthy(f.retentionRef) then Some(MetadataInvalid)
      else None
    else if f.outcome.Some? then Some(MetadataInvalid)
    else None
  }

  predicate AnyFails(results: seq<KindResult>) {
    exists k | 0 <= k < |results| :: results[k].state == "FAIL"
  }

  function EvidenceRefusal(t: TaskState, f: Finish): Option<TaskError> {
    var results := Evaluated(Required(t), t.evidence, f.finalCommit);
    if Satisfied(Required(t), t.evidence, f.finalCommit) then None
    else if AnyFails(results) then Some(EvidenceFailed)
    else Some(EvidenceRequired)
  }

  function FinishRefusal(t: TaskState, f: Finish): Option<TaskError> {
    if InactiveRefusal(t).Some? then InactiveRefusal(t)
    else if t.pending != [] then Some(ProcessStartPending)
    else if OutcomeRefusal(t, f).Some? then OutcomeRefusal(t, f)
    else EvidenceRefusal(t, f)
  }

  function CancelRefusal(t: TaskState): Option<TaskError> {
    if t.status == Cancelled then None
    else if t.pending != [] then Some(ProcessStartPending)
    else if t.status != Active then Some(NotActive)
    else None
  }

  function ReserveRefusal(t: TaskState, process: string, owner: Option<string>): Option<TaskError> {
    if !IsProcessId(process) then Some(InvalidProcessId)
    else if owner.Some? && Blank(owner.value) then Some(InvalidRuntimeId)
    else InactiveRefusal(t)
  }

  function Refusal(t: TaskState, op: Op): Option<TaskError> {
    match op
    case ReserveStart(process, owner) => ReserveRefusal(t, process, owner)
    case ReleaseStart(_) => None
    case AddProcess(process, reserved) =>
      if InactiveRefusal(t).Some? then InactiveRefusal(t)
      else if reserved && !IsPending(t, process) then Some(ReservationMissing)
      else None
    case RecordCommit(_) => InactiveRefusal(t)
    case RecordEvidence(record, normalize) =>
      if InactiveRefusal(t).Some? then InactiveRefusal(t)
      else if normalize(record.kind) !in ALLOWED_KINDS then Some(InvalidEvidenceKind)
      else None
    case ByApproval(_) => None
    case FinishTask(f) => FinishRefusal(t, f)
    case CancelTask => CancelRefusal(t)
    case RecordCleanup(_) => if t.cleaned || t.status != Active then None else Some(NotFinalized)
  }

  // ----- What each operation does -----

  function Released(pending: seq<Reservation>, process: string): (r: seq<Reservation>)
    ensures forall x :: x in r <==> x in pending && x.process != process
  {
    if pending == [] then []
    else (if pending[0].process == process then [] else [pending[0]]) + Released(pending[1..], process)
  }

  function LedgerOf(t: TaskState): Ledger {
    Ledger(t.status == Active && !t.cleaned, t.approvals, t.grants)
  }

  function AfterApproval(t: TaskState, a: ApprovalOp): TaskState {
    var l :=
      match a
      case AuthorizeOp(policy, fingerprint, id) => Authorized(LedgerOf(t), policy, fingerprint, id).0
      case RespondOp(id, decision) => Responded(LedgerOf(t), id, decision);
    t.(approvals := l.approvals, grants := l.grants)
  }

  function AfterAdd(t: TaskState, process: string, reserved: bool): TaskState {
    t.(pending := if reserved then Released(t.pending, process) else t.pending,
       processes := if process in t.processes then t.processes else t.processes + [process])
  }

  function AfterFinish(t: TaskState, f: Finish): TaskState {
    t.(status := Completed, finalCommit := f.finalCommit, outcome := f.outcome, outcomeReason := f.reason,
       retentionRef := f.retentionRef, verified := t.contract.Some?, grants := [])
  }

  function After(t: TaskState, op: Op): TaskState {
    match op
    case ReserveStart(process, owner) =>
      if IsPending(t, process) then t else t.(pending := t.pending + [Reservation(process, owner)])
    case ReleaseStart(process) => t.(pending := Released(t.pending, process))
    case AddProcess(process, reserved) => AfterAdd(t, process, reserved)
    case RecordCommit(sha) => t.(latestCommit := Some(sha))
    case RecordEvidence(record, normalize) =>
      t.(evidence := t.evidence + [record.(kind := normalize(record.kind))])
    case ByApproval(a) => AfterApproval(t, a)
    case FinishTask(f) => AfterFinish(t, f)
    case CancelTask => if t.status == Cancelled then t else t.(status := Cancelled, grants := [])
    case RecordCleanup(gcRef) => if t.cleaned then t else t.(cleaned := true, gcSafetyRef := gcRef)
  }

  /** One call: refused calls change nothing. */
  function Step(t: TaskState, op: Op): TaskState {
    if Refusal(t, op).Some? then t else After(t, op)
  }

  // ----- What each operation does, said without the functions above -----

  /** The refusal of a task that takes no more work, and of no other. */
  ghost predicate ClosedFor(t: TaskState, refused: Option<TaskError>) {
    && (refused == Some(NotActive) <==> t.status != Active)
    && (refused == Some(WorkspaceCleaned) <==> t.status == Active && t.cleaned)
  }

  ghost predicate Open(t: TaskState) {
    t.status == Active && !t.cleaned
  }

  ghost predicate IsReserved(t: TaskState, process: string) {
    exists x :: x in t.pending && x.process == process
  }

  /** `proc_` and 36 characters of a UUID. */
  ghost predicate NamesProcess(id: string) {
    exists rest :: id == "proc_" + rest && |rest| == 36 && forall c | c in rest :: c in "0123456789abcdef-"
  }

  ghost predicate Reserves(
    t: TaskState, process: string, owner: Option<string>, refused: Option<TaskError>, t': TaskState)
  {
    var named, blank := NamesProcess(process), owner.Some? && Blank(owner.value);
    && (refused == Some(InvalidProcessId) <==> !named)
    && (refused == Some(InvalidRuntimeId) <==> named && blank)
    && (refused == Some(NotActive) <==> named && !blank && t.status != Active)
    && (refused == Some(WorkspaceCleaned) <==> named && !blank && t.status == Active && t.cleaned)
    && (refused.None? <==> named && !blank && Open(t))
    && t' == t.(pending :=
         if refused.None? && !IsReserved(t, process) then t.pending + [Reservation(process, owner)] else t.pending)
  }

  /** The reservations of one process are gone, and no other. */
  ghost predicate Unreserved(t: TaskState, process: string, t': TaskState) {
    && t' == t.(pending := t'.pending, processes := t'.processes)
    && forall x :: x in t'.pending <==> x in t.pending && x.process != process
  }

  ghost predicate Releases(t: TaskState, process: string, refused: Option<TaskError>, t': TaskState) {
    refused.None? && Unreserved(t, process, t') && t'.processes == t.processes
  }

  ghost predicate Registers(t: TaskState, process: string, reserved: bool, refused: Option<TaskError>, t': TaskState) {
    && ClosedFor(t, refused)
    && (refused == Some(ReservationMissing) <==> Open(t) && reserved && !IsReserved(t, process))
    && (refused.None? <==> Open(t) && (reserved ==> IsReserved(t, process)))
    && (refused.Some? ==> t' == t)
    && (refused.None? ==>
          && (if reserved then Unreserved(t, process, t') else t' == t.(processes := t'.processes))
          && t'.processes == if process in t.processes then t.processes else t.processes + [process])
  }

  ghost predicate Commits(t: TaskState, sha: string, refused: Option<TaskError>, t': TaskState) {
    && ClosedFor(t, refused) && (refused.None? <==> Open(t))
    && t' == if Open(t) then t.(latestCommit := Some(sha)) else t
  }

  ghost predicate IsSupported(kind: string) {
    kind in {
      "TARGETED_TESTS", "FULL_SUITE", "STATIC_CHECK", "DIFF_CHECK", "MIGRATION_CHECK", "PROVIDER_CHECK", "REVIEW"}
  }

  /** Evidence is what the caller says, under the normalised kind. */
  ghost predicate Testifies(t: TaskState, record: Record, kind: string, refused: Option<TaskError>, t': TaskState) {
    && ClosedFor(t, refused)
    && (refused == Some(InvalidEvidenceKind) <==> Open(t) && !IsSupported(kind))
    && (refused.None? <==> Open(t) && IsSupported(kind))
    && t' == if refused.None? then t.(evidence := t.evidence + [Record(kind, record.status, record.subject)]) else t
  }

  ghost predicate NamesCommit(t: TaskState, f: Finish) {
    f.finalCommit.Some? && f.finalCommit.value != "" && f.finalCommit.value != t.baseHead
  }

  ghost predicate GivesReason(f: Finish) {
    f.reason.Some? && exists k :: 0 <= k < |f.reason.value| && !IsSpace(f.reason.value[k])
  }

  ghost predicate HasRef(f: Finish) {
    f.retentionRef.Some? && f.retentionRef.value != ""
  }

  /** The outcome is one that may be recorded, or none. */
  ghost predicate OutcomeHolds(t: TaskState, f: Finish) {
    || f.outcome.None?
    || (f.outcome.value == "COMMIT" && NamesCommit(t, f) && f.retentionRef == Some("refs/agentdock/tasks/" + t.id))
    || (f.outcome.value == "NO_CHANGE" && f.finalCommit == Some(t.baseHead) && GivesReason(f) && !HasRef(f))
  }

  ghost predicate Requires(t: TaskState, kind: string) {
    t.contract.Some? && kind in t.contract.value
  }

  /** The newest record of the kind is on the commit, and says so. */
  ghost predicate SaysLast(t: TaskState, kind: string, commit: Option<string>, status: string) {
    exists i: nat :: IsLast(t.evidence, kind, i) && t.evidence[i].subject == commit && t.evidence[i].status == status
  }

  ghost predicate EvidenceHolds(t: TaskState, f: Finish) {
    forall kind | Requires(t, kind) :: SaysLast(t, kind, f.finalCommit, "PASS")
  }

  ghost predicate KnownToFail(t: TaskState, f: Finish) {
    exists kind :: Requires(t, kind) && SaysLast(t, kind, f.finalCommit, "FAIL")
  }

  /** Why a task that is open and quiet is not finished. */
  ghost predicate FinishRefused(t: TaskState, f: Finish, e: TaskError) {
    match e
    case CommitRequired => f.outcome == Some("COMMIT") && !NamesCommit(t, f)
    case CommitNotRetained =>
      f.outcome == Some("COMMIT") && NamesCommit(t, f) && f.retentionRef != Some("refs/agentdock/tasks/" + t.id)
    case NoChangeHasCommit => f.outcome == Some("NO_CHANGE") && f.finalCommit != Some(t.baseHead)
    case NoChangeReasonRequired =>
      f.outcome == Some("NO_CHANGE") && f.finalCommit == Some(t.baseHead) && !GivesReason(f)
    case MetadataInvalid =>
      || (f.outcome == Some("NO_CHANGE") && f.finalCommit == Some(t.baseHead) && GivesReason(f) && HasRef(f))
      || (f.outcome.Some? && f.outcome.value != "COMMIT" && f.outcome.value != "NO_CHANGE")
    case EvidenceFailed =>
      OutcomeHolds(t, f) && !EvidenceHolds(t, f) && KnownToFail(t, f)
    case EvidenceRequired =>
      OutcomeHolds(t, f) && !EvidenceHolds(t, f) && !KnownToFail(t, f)
    case _ => false
  }

  ghost predicate Finishes(t: TaskState, f: Finish, refused: Option<TaskError>, t': TaskState) {
    && ClosedFor(t, refused)
    && (refused == Some(ProcessStartPending) <==> Open(t) && t.pending != [])
    && (Open(t) && t.pending == [] ==> if refused.Some? then FinishRefused(t, f, refused.value)
                                       else OutcomeHolds(t, f) && EvidenceHolds(t, f))
    && (refused.Some? ==> t' == t)
    && (refused.None? ==>
          t' == t.(status := Completed, finalCommit := f.finalCommit, outcome := f.outcome, outcomeReason := f.reason,
                   retentionRef := f.retentionRef, verified := t.contract.Some?, grants := []))
  }

  ghost predicate Abandons(t: TaskState, refused: Option<TaskError>, t': TaskState) {
    && (refused == Some(ProcessStartPending) <==> t.status != Cancelled && t.pending != [])
    && (refused == Some(NotActive) <==> t.status == Completed && t.pending == [])
    && (refused.None? <==> t.status == Cancelled || (t.status == Active && t.pending == []))
    && t' == if t.status == Active && t.pending == [] then t.(status := Cancelled, grants := []) else t
  }

  ghost predicate Cleans(t: TaskState, gcRef: Option<string>, refused: Option<TaskError>, t': TaskState) {
    && (refused == Some(NotFinalized) <==> t.status == Active && !t.cleaned)
    && (refused.None? <==> t.status != Active || t.cleaned)
    && t' == if t.status != Active && !t.cleaned then t.(cleaned := true, gcSafetyRef := gcRef) else t
  }

  /** Nothing but the requests and the grants changes, by a ledger that is active while the task is open. */
  ghost predicate ByLedger(t: TaskState, a: ApprovalOp, refused: Option<TaskError>, t': TaskState) {
    && refused.None? && t' == t.(approvals := t'.approvals, grants := t'.grants)
    && var l, l' := Ledger(Open(t), t.approvals, t.grants), Ledger(Open(t), t'.approvals, t'.grants);
       match a
       case AuthorizeOp(policy, fingerprint, id) => Asked(l, policy, fingerprint, id, l')
       case RespondOp(id, decision) => Decided(l, id, decision, l')
  }

  ghost predicate Does(t: TaskState, op: Op, refused: Option<TaskError>, t': TaskState) {
    match op
    case ReserveStart(process, owner) => Reserves(t, process, owner, refused, t')
    case ReleaseStart(process) => Releases(t, process, refused, t')
    case AddProcess(process, reserved) => Registers(t, process, reserved, refused, t')
    case RecordCommit(sha) => Commits(t, sha, refused, t')
    case RecordEvidence(record, normalize) => Testifies(t, record, normalize(record.kind), refused, t')
    case ByApproval(a) => ByLedger(t, a, refused, t')
    case FinishTask(f) => Finishes(t, f, refused, t')
    case CancelTask => Abandons(t, refused, t')
    case RecordCleanup(gcRef) => Cleans(t, gcRef, refused, t')
  }

  lemma {:induction false} ProcessIdsMean(id: string)
    ensures IsProcessId(id) <==> NamesProcess(id)
  {
    if IsProcessId(id) {
      assert id == "proc_" + id[5..];
    }
    if rest :| id == "proc_" + rest && |rest| == 36 && forall c | c in rest :: c in "0123456789abcdef-" {
      assert id[..5] == "proc_" && id[5..] == rest;
      forall k | 5 <= k < 41 ensures '0' <= id[k] <= '9' || 'a' <= id[k] <= 'f' || id[k] == '-' {
        assert id[k] == rest[k - 5] && rest[k - 5] in rest;
      }
    }
  }

  lemma {:induction false} ReservedMeans(t: TaskState, process: string)
    ensures IsPending(t, process) <==> IsReserved(t, process)
  {
    if IsPending(t, process) {
      var k :| 0 <= k < |t.pending| && t.pending[k].process == process;
      assert t.pending[k] in t.pending;
    }
  }

  lemma {:induction false} ReserveMeans(t: TaskState, process: string, owner: Option<string>)
    ensures var op := ReserveStart(process, owner); Reserves(t, process, owner, Refusal(t, op), Step(t, op))
  {
    ProcessIdsMean(process);
    ReservedMeans(t, process);
  }

  lemma {:induction false} ReleaseMeans(t: TaskState, process: string)
    ensures var op := ReleaseStart(process); Releases(t, process, Refusal(t, op), Step(t, op))
  {
  }

  lemma {:induction false} AddMeans(t: TaskState, process: string, reserved: bool)
    ensures var op := AddProcess(process, reserved); Registers(t, process, reserved, Refusal(t, op), Step(t, op))
  {
    ReservedMeans(t, process);
  }

  lemma {:induction false} CommitMeans(t: TaskState, sha: string)
    ensures var op := RecordCommit(sha); Commits(t, sha, Refusal(t, op), Step(t, op))
  {
  }

  lemma {:induction false} EvidenceMeans(t: TaskState, record: Record, normalize: string -> string)
    ensures var op := RecordEvidence(record, normalize);
      Testifies(t, record, normalize(record.kind), Refusal(t, op), Step(t, op))
  {
  }

  lemma {:induction false} ReasonMeans(f: Finish)
    ensures GivesReason(f) <==> f.reason.Some? && !Blank(f.reason.value)
  {
  }

  lemma {:induction false} OutcomeMeans(t: TaskState, f: Finish)
    ensures OutcomeRefusal(t, f).None? <==> OutcomeHolds(t, f)
    ensures OutcomeRefusal(t, f).Some? ==> FinishRefused(t, f, OutcomeRefusal(t, f).value)
  {
    ReasonMeans(f);
  }

  lemma {:induction false} StateMeans(t: TaskState, kind: string, commit: Option<string>, status: string)
    requires status != "MISSING" && status != "STALE"
    ensures StateOf(t.evidence, kind, commit) == status <==> SaysLast(t, kind, commit, status)
  {
    if SaysLast(t, kind, commit, status) {
      var i: nat :| IsLast(t.evidence, kind, i) && t.evidence[i].subject == commit && t.evidence[i].status == status;
      LatestIsLast(t.evidence, kind, i);
    }
    if StateOf(t.evidence, kind, commit) == status {
      var i := LastOf(t.evidence, kind);
      LatestIsLast(t.evidence, kind, i);
    }
  }

  lemma {:induction false} EvidenceHoldsMeans(t: TaskState, f: Finish)
    ensures Satisfied(Required(t), t.evidence, f.finalCommit) <==> EvidenceHolds(t, f)
  {
    SatisfiedExactly(Required(t), t.evidence, f.finalCommit);
    forall kind ensures PassesLast(t.evidence, kind, f.finalCommit) <==> SaysLast(t, kind, f.finalCommit, "PASS") {
    }
    assert forall kind :: kind in Required(t) <==> Requires(t, kind);
  }

  lemma {:induction false} FailureFound(t: TaskState, f: Finish)
    requires AnyFails(Evaluated(Required(t), t.evidence, f.finalCommit))
    ensures KnownToFail(t, f)
  {
    var results := Evaluated(Required(t), t.evidence, f.finalCommit);
    var k :| 0 <= k < |results| && results[k].state == "FAIL";
    StateMeans(t, Required(t)[k], f.finalCommit, "FAIL");
    assert Requires(t, Required(t)[k]);
  }

  lemma {:induction false} FailureKnown(t: TaskState, f: Finish)
    requires KnownToFail(t, f)
    ensures AnyFails(Evaluated(Required(t), t.evidence, f.finalCommit))
  {
    var kind :| Requires(t, kind) && SaysLast(t, kind, f.finalCommit, "FAIL");
    StateMeans(t, kind, f.finalCommit, "FAIL");
    var k :| 0 <= k < |Required(t)| && Required(t)[k] == kind;
    assert Evaluated(Required(t), t.evidence, f.finalCommit)[k].state == "FAIL";
  }

  lemma {:induction false} EvidenceRefusalMeans(t: TaskState, f: Finish)
    requires OutcomeHolds(t, f)
    ensures EvidenceRefusal(t, f).None? <==> EvidenceHolds(t, f)
    ensures EvidenceRefusal(t, f).Some? ==> FinishRefused(t, f, EvidenceRefusal(t, f).value)
  {
    EvidenceHoldsMeans(t, f);
    if AnyFails(Evaluated(Required(t), t.evidence, f.finalCommit)) {
      FailureFound(t, f);
    } else if KnownToFail(t, f) {
      FailureKnown(t, f);
    }
  }

  lemma {:induction false} FinishMeans(t: TaskState, f: Finish)
    ensures Finishes(t, f, Refusal(t, FinishTask(f)), Step(t, FinishTask(f)))
  {
    OutcomeMeans(t, f);
    if OutcomeHolds(t, f) {
      EvidenceRefusalMeans(t, f);
    }
  }

  lemma {:induction false} CancelMeans(t: TaskState)
    ensures Abandons(t, Refusal(t, CancelTask), Step(t, CancelTask))
  {
  }

  lemma {:induction false} CleanupMeans(t: TaskState, gcRef: Option<string>)
    ensures var op := RecordCleanup(gcRef); Cleans(t, gcRef, Refusal(t, op), Step(t, op))
  {
  }

  lemma {:induction false} ApprovalOpMeans(t: TaskState, a: ApprovalOp)
    ensures ByLedger(t, a, Refusal(t, ByApproval(a)), Step(t, ByApproval(a)))
  {
    match a {
      case AuthorizeOp(policy, fingerprint, id) => AuthorizedMeans(LedgerOf(t), policy, fingerprint, id);
      case RespondOp(id, decision) => RespondedMeans(LedgerOf(t), id, decision);
    }
  }

  /** Each operation does what is said of it. */
  lemma {:induction false} StepMeans(t: TaskState, op: Op)
    ensures Does(t, op, Refusal(t, op), Step(t, op))
  {
    match op {
      case ReserveStart(process, owner) => ReserveMeans(t, process, owner);
      case ReleaseStart(process) => ReleaseMeans(t, process);
      case AddProcess(process, reserved) => AddMeans(t, process, reserved);
      case RecordCommit(sha) => CommitMeans(t, sha);
      case RecordEvidence(record, normalize) => EvidenceMeans(t, record, normalize);
      case ByApproval(a) => ApprovalOpMeans(t, a);
      case FinishTask(f) => FinishMeans(t, f);
      case CancelTask => CancelMeans(t);
      case RecordCleanup(gcRef) => CleanupMeans(t, gcRef);
    }
  }

  // ----- The stored document, updated in place -----

  class TaskRecord {
    const id: string
    const baseHead: string
    const contract: Option<seq<string>>
    var status: Status
    var cleaned: bool
    var pending: seq<Reservation>
    var processes: seq<string>
    var approvals: seq<Request>
    var grants: seq<Grant>
    var evidence: seq<Record>
    var latestCommit: Option<string>
    var finalCommit: Option<string>
    var outcome: Option<string>
    var outcomeReason: Option<string>
    var retentionRef: Option<string>
    var verified: bool
    var gcSafetyRef: Option<string>

    function State(): TaskState
      reads this
    {
      TaskState(id, baseHead, contract, status, cleaned, pending, processes, approvals, grants, evidence,
                latestCommit, finalCommit, outcome, outcomeReason, retentionRef, verified, gcSafetyRef)
    }

    constructor (id: string, baseHead: string, contract: Option<seq<string>>)
      ensures State() == NewTask(id, baseHead, contract)
      ensures this.id == id && this.baseHead == baseHead && this.contract == contract && status == Active && !cleaned
      ensures pending == [] && processes == [] && approvals == [] && grants == [] && evidence == [] && !verified
      ensures latestCommit == None && finalCommit == None && outcome == None && outcomeReason == None
      ensures retentionRef == None && gcSafetyRef == None
    {
      this.id, this.baseHead, this.contract := id, baseHead, contract;
      status, cleaned, pending, processes, approvals, grants := Active, false, [], [], [], [];
      evidence, latestCommit, finalCommit, outcome, outcomeReason := [], None, None, None, None;
      retentionRef, verified, gcSafetyRef := None, false, None;
    }

    method AssertActive() returns (refused: Option<TaskError>)
      ensures refused == InactiveRefusal(State())
    {
      if status != Active {
        return Some(NotActive);
      }
      if cleaned {
        return Some(WorkspaceCleaned);
      }
      return None;
    }

    method HasReservation(process: string) returns (found: bool)
      ensures found <==> IsPending(State(), process)
    {
      var k := 0;
      while k < |pending|
        invariant 0 <= k <= |pending| && forall j | 0 <= j < k :: pending[j].process != process
      {
        if pending[k].process == process {
          return true;
        }
        k := k + 1;
      }
      return false;
    }

    method ReserveProcessStart(process: string, owner: Option<string>) returns (refused: Option<TaskError>)
      modifies this`pending
      ensures refused == Refusal(old(State()), ReserveStart(process, owner))
      ensures State() == Step(old(State()), ReserveStart(process, owner))
      ensures Reserves(old(State()), process, owner, refused, State())
    {
      ReserveMeans(State(), process, owner);
      if !IsProcessId(process) {
        return Some(InvalidProcessId);
      }
      if owner.Some? && Blank(owner.value) {
        return Some(InvalidRuntimeId);
      }
      refused := AssertActive();
      if refused.Some? {
        return;
      }
      var reserved := HasReservation(process);
      if !reserved {
        pending := pending + [Reservation(process, owner)];
      }
    }

    method ReleaseProcessStart(process: string)
      modifies this`pending
      ensures State() == Step(old(State()), ReleaseStart(process))
      ensures Releases(old(State()), process, None, State())
    {
      ReleaseMeans(State(), process);
      pending := Released(pending, process);
    }

    method AddProcess(process: string, reserved: bool) returns (refused: Option<TaskError>)
      modifies this`pending, this`processes
      ensures refused == Refusal(old(State()), Op.AddProcess(process, reserved))
      ensures State() == Step(old(State()), Op.AddProcess(process, reserved))
      ensures Registers(old(State()), process, reserved, refused, State())
    {
      AddMeans(State(), process, reserved);
      refused := AssertActive();
      if refused.Some? {
        return;
      }
      if reserved {
        var found := HasReservation(process);
        if !found {
          return Some(ReservationMissing);
        }
        pending := Released(pending, process);
      }
      if process !in processes {
        processes := processes + [process];
      }
    }

    method RecordCommit(sha: string) returns (refused: Option<TaskError>)
      modifies this`latestCommit
      ensures refused == Refusal(old(State()), Op.RecordCommit(sha))
      ensures State() == Step(old(State()), Op.RecordCommit(sha))
      ensures Commits(old(State()), sha, refused, State())
    {
      CommitMeans(State(), sha);
      refused := AssertActive();
      if refused.None? {
        latestCommit := Some(sha);
      }
    }

    /** Evidence is stored as given, under its normalised kind, which must be a supported one. */
    method RecordEvidence(record: Record, normalize: string -> string) returns (refused: Option<TaskError>)
      modifies this`evidence
      ensures refused == Refusal(old(State()), Op.RecordEvidence(record, normalize))
      ensures State() == Step(old(State()), Op.RecordEvidence(record, normalize))
      ensures Testifies(old(State()), record, normalize(record.kind), refused, State())
      ensures refused.None? ==>
        evidence == old(evidence) + [Record(normalize(record.kind), record.status, record.subject)]
      ensures refused.Some? ==> evidence == old(evidence)
    {
      EvidenceMeans(State(), record, normalize);
      refused := AssertActive();
      if refused.Some? {
        return;
      }
      var kind := normalize(record.kind);
      if kind !in ALLOWED_KINDS {
        return Some(InvalidEvidenceKind);
      }
      evidence := evidence + [record.(kind := kind)];
    }

    method CheckOutcome(f: Finish) returns (refused: Option<TaskError>)
      ensures refused == OutcomeRefusal(State(), f)
    {
      if f.outcome == Some("COMMIT") {
        if !Truthy(f.finalCommit) || f.finalCommit == Some(baseHead) {
          return Some(CommitRequired);
        }
        if f.retentionRef != Some(RetentionRef(id)) {
          return Some(CommitNotRetained);
        }
      } else if f.outcome == Some("NO_CHANGE") {
        if f.finalCommit != Some(baseHead) {
          return Some(NoChangeHasCommit);
        }
        if f.reason.None? || Blank(f.reason.value) {
          return Some(NoChangeReasonRequired);
        }
        if Truthy(f.retentionRef) {
          return Some(MetadataInvalid);
        }
      } else if f.outcome.Some? {
        return Some(MetadataInvalid);
      }
      return None;
    }

    method CheckFinish(f: Finish) returns (refused: Option<TaskError>)
      ensures refused == FinishRefusal(State(), f)
    {
      refused := AssertActive();
      if refused.Some? {
        return;
      }
      if |pending| > 0 {
        return Some(ProcessStartPending);
      }
      refused := CheckOutcome(f);
      if refused.Some? {
        return;
      }
      refused := EvidenceRefusal(State(), f);
    }

    method Complete(f: Finish)
      modifies this
      ensures State() == AfterFinish(old(State()), f)
    {
      status := Completed;
      finalCommit := f.finalCommit;
      outcome := f.outcome;
      outcomeReason := f.reason;
      retentionRef := f.retentionRef;
      verified := contract.Some?;
      grants := [];
    }

    method Finish(f: Finish) returns (refused: Option<TaskError>)
      modifies this
      ensures refused == Refusal(old(State()), FinishTask(f))
      ensures State() == Step(old(State()), FinishTask(f))
      ensures Finishes(old(State()), f, refused, State())
    {
      FinishMeans(State(), f);
      refused := CheckFinish(f);
      if refused.None? {
        Complete(f);
      }
    }

    method Cancel() returns (refused: Option<TaskError>)
      modifies this`status, this`grants
      ensures refused == Refusal(old(State()), CancelTask)
      ensures State() == Step(old(State()), CancelTask)
      ensures Abandons(old(State()), refused, State())
    {
      CancelMeans(State());
      if status == Cancelled {
        return None;
      }
      if |pending| > 0 {
        return Some(ProcessStartPending);
      }
      if status != Active {
        return Some(NotActive);
      }
      status := Cancelled;
      grants := [];
      return None;
    }

    method RecordCleanup(gcRef: Option<string>) returns (refused: Option<TaskError>)
      modifies this`cleaned, this`gcSafetyRef
      ensures refused == Refusal(old(State()), Op.RecordCleanup(gcRef))
      ensures State() == Step(old(State()), Op.RecordCleanup(gcRef))
      ensures Cleans(old(State()), gcRef, refused, State())
    {
      CleanupMeans(State(), gcRef);
      if cleaned {
        return None;
      }
      if status != Completed && status != Cancelled {
        return Some(NotFinalized);
      }
      cleaned := true;
      gcSafetyRef := gcRef;
      return None;
    }
  }

  // ----- What every history keeps -----

  /** A completed task says truthfully what it ended with. */
  ghost predicate CompletionOk(t: TaskState) {
    && (t.outcome == Some("COMMIT") ==>
          Truthy(t.finalCommit) && t.finalCommit != Some(t.baseHead) && t.retentionRef == Some(RetentionRef(t.id)))
    && (t.outcome == Some("NO_CHANGE") ==>
          t.finalCommit == Some(t.baseHead) && t.outcomeReason.Some? && !Blank(t.outcomeReason.value)
          && !Truthy(t.retentionRef))
    && (t.outcome.None? || t.outcome == Some("COMMIT") || t.outcome == Some("NO_CHANGE"))
    && (t.verified <==> t.contract.Some?)
    && Satisfied(Required(t), t.evidence, t.finalCommit)
  }

  ghost predicate TaskOk(t: TaskState) {
    && (t.status != Active ==> t.pending == [] && t.grants == [])
    && (t.cleaned ==> t.status != Active)
    && (t.status == Completed ==> CompletionOk(t))
    && DistinctStarts(t.pending) && DistinctRuns(t.processes) && Supported(t.evidence)
  }

  ghost predicate DistinctStarts(pending: seq<Reservation>) {
    forall i, j | 0 <= i < j < |pending| :: pending[i].process != pending[j].process
  }

  ghost predicate DistinctRuns(processes: seq<string>) {
    forall i, j | 0 <= i < j < |processes| :: processes[i] != processes[j]
  }

  ghost predicate Supported(evidence: seq<Record>) {
    forall k | 0 <= k < |evidence| :: evidence[k].kind in ALLOWED_KINDS
  }

  /** Everything a finalised task is, but for the record that its worktree is gone. */
  ghost predicate Frozen(t: TaskState, t': TaskState) {
    && t' == t.(cleaned := t'.cleaned, gcSafetyRef := t'.gcSafetyRef)
    && (t.cleaned ==> t' == t)
  }

  /** The identity of a task is fixed, and its runs and evidence are only added to. */
  ghost predicate Grows(t: TaskState, t': TaskState) {
    && t'.id == t.id && t'.baseHead == t.baseHead && t'.contract == t.contract
    && t.processes <= t'.processes && t.evidence <= t'.evidence
  }

  ghost predicate Kept(t: TaskState, t': TaskState) {
    TaskOk(t') && Grows(t, t') && (t.status != Active ==> Frozen(t, t'))
  }

  lemma {:induction false} ReleasedStaysDistinct(pending: seq<Reservation>, process: string)
    requires DistinctStarts(pending)
    ensures DistinctStarts(Released(pending, process))
  {
    if pending != [] {
      var rest := pending[1..];
      var r := Released(rest, process);
      ReleasedStaysDistinct(rest, process);
      forall x | x in r ensures x.process != pending[0].process {
        var k :| 0 <= k < |rest| && rest[k] == x;
        assert pending[k + 1] == x;
      }
      if pending[0].process != process {
        assert Released(pending, process) == [pending[0]] + r;
      } else {
        assert Released(pending, process) == [] + r == r;
      }
    }
  }

  lemma {:induction false} StartStep(t: TaskState, op: Op)
    requires TaskOk(t) && (op.ReserveStart? || op.ReleaseStart? || op.AddProcess?)
    ensures Kept(t, Step(t, op))
  {
    ReleasedStaysDistinct(t.pending, op.process);
  }

  lemma {:induction false} RecordStep(t: TaskState, op: Op)
    requires TaskOk(t) && (op.RecordCommit? || op.RecordEvidence? || op.ByApproval?)
    ensures Kept(t, Step(t, op))
  {
  }

  lemma {:induction false} FinalStep(t: TaskState, op: Op)
    requires TaskOk(t) && (op.FinishTask? || op.CancelTask? || op.RecordCleanup?)
    ensures Kept(t, Step(t, op))
  {
  }

  lemma {:induction false} StepKeepsTask(t: TaskState, op: Op)
    requires TaskOk(t)
    ensures Kept(t, Step(t, op))
  {
    if op.ReserveStart? || op.ReleaseStart? || op.AddProcess? {
      StartStep(t, op);
    } else if op.FinishTask? || op.CancelTask? || op.RecordCleanup? {
      FinalStep(t, op);
    } else {
      RecordStep(t, op);
    }
  }

  lemma {:induction false} FrozenFor(t: TaskState, u: TaskState, v: TaskState)
    requires Frozen(t, u) && Frozen(u, v)
    ensures Frozen(t, v) && u.status == t.status
  {
  }

  lemma {:induction false} GrowsFor(t: TaskState, u: TaskState, v: TaskState)
    requires Grows(t, u) && Grows(u, v)
    ensures Grows(t, v)
  {
  }

  ghost predicate StepsTo(t: TaskState, op: Op, t': TaskState) {
    t' == Step(t, op)
  }

  ghost predicate IsHistory(ts: seq<TaskState>, ops: seq<Op>) {
    && |ts| == |ops| + 1 && ts[0] == NewTask(ts[0].id, ts[0].baseHead, ts[0].contract)
    && forall k {:trigger ops[k]} | 0 <= k < |ops| :: StepsTo(ts[k], ops[k], ts[k + 1])
  }

  lemma {:induction false} HistoryKeepsTask(ts: seq<TaskState>, ops: seq<Op>, k: nat)
    requires IsHistory(ts, ops) && k < |ts|
    ensures TaskOk(ts[k])
  {
    if k > 0 {
      HistoryKeepsTask(ts, ops, k - 1);
      assert StepsTo(ts[k - 1], ops[k - 1], ts[k]);
      StepKeepsTask(ts[k - 1], ops[k - 1]);
    }
  }

  lemma {:induction false} HistoryStep(ts: seq<TaskState>, ops: seq<Op>, k: nat)
    requires IsHistory(ts, ops) && k < |ops|
    ensures Grows(ts[k], ts[k + 1]) && (ts[k].status != Active ==> Frozen(ts[k], ts[k + 1]))
  {
    HistoryKeepsTask(ts, ops, k);
    assert StepsTo(ts[k], ops[k], ts[k + 1]);
    StepKeepsTask(ts[k], ops[k]);
  }

  /** A finalised task has no pending start and no grant, and a cleaned one is finalised. */
  lemma {:induction false} FinalisedIsQuiet(ts: seq<TaskState>, ops: seq<Op>, k: nat)
    requires IsHistory(ts, ops) && k < |ts|
    ensures ts[k].status != Active ==> ts[k].pending == [] && ts[k].grants == []
    ensures ts[k].cleaned ==> ts[k].status != Active
  {
    HistoryKeepsTask(ts, ops, k);
  }

  /** Finality: from the moment a task is completed or cancelled nothing about it changes any
      more, except that its cleanup is recorded, once. */
  lemma {:induction false} Finality(ts: seq<TaskState>, ops: seq<Op>, j: nat, k: nat)
    requires IsHistory(ts, ops) && j <= k < |ts| && ts[j].status != Active
    ensures Frozen(ts[j], ts[k])
    decreases k - j
  {
    if j < k {
      Finality(ts, ops, j, k - 1);
      HistoryStep(ts, ops, k - 1);
      FrozenFor(ts[j], ts[k - 1], ts[k]);
    }
  }

  /** A task completed with a commit names a new commit under its own ref; one completed
      without change names the base commit and a reason. */
  lemma {:induction false} OutcomeIsTruthful(ts: seq<TaskState>, ops: seq<Op>, k: nat)
    requires IsHistory(ts, ops) && k < |ts| && ts[k].status == Completed
    ensures ts[k].outcome == Some("COMMIT") ==>
              Truthy(ts[k].finalCommit) && ts[k].finalCommit != Some(ts[k].baseHead)
              && ts[k].retentionRef == Some(RetentionRef(ts[k].id))
    ensures ts[k].outcome == Some("NO_CHANGE") ==>
              ts[k].finalCommit == Some(ts[k].baseHead) && ts[k].outcomeReason.Some?
              && !Blank(ts[k].outcomeReason.value) && !Truthy(ts[k].retentionRef)
    ensures ts[k].outcome in {None, Some("COMMIT"), Some("NO_CHANGE")}
  {
    HistoryKeepsTask(ts, ops, k);
  }

  /** A completed task with a contract has, for every required kind, a PASS on its final
      commit as the newest record of that kind. */
  lemma {:induction false} CompletedMeetsItsContract(ts: seq<TaskState>, ops: seq<Op>, k: nat, kind: string)
    requires IsHistory(ts, ops) && k < |ts| && ts[k].status == Completed
    requires ts[k].contract.Some? && kind in ts[k].contract.value
    ensures ts[k].verified && PassesLast(ts[k].evidence, kind, ts[k].finalCommit)
  {
    HistoryKeepsTask(ts, ops, k);
    SatisfiedExactly(ts[k].contract.value, ts[k].evidence, ts[k].finalCommit);
  }

  /** The call was accepted, and recorded evidence of this kind. */
  ghost predicate Recorded(ts: seq<TaskState>, ops: seq<Op>, j: nat, kind: string)
    requires j < |ops| && j < |ts|
  {
    && ops[j].RecordEvidence? && Open(ts[j])
    && ops[j].normalize(ops[j].record.kind) == kind && IsSupported(kind)
  }

  /** What the call at `j` recorded is the record at this place of the evidence. */
  ghost predicate StoredAt(ts: seq<TaskState>, ops: seq<Op>, j: nat, kind: string, k: nat)
    requires j < |ops| && j < |ts| && k < |ts| && ops[j].RecordEvidence?
  {
    && |ts[j].evidence| < |ts[k].evidence|
    && ts[k].evidence[|ts[j].evidence|] == Record(kind, ops[j].record.status, ops[j].record.subject)
  }

  lemma {:induction false} StepOfHistory(ts: seq<TaskState>, ops: seq<Op>, k: nat)
    requires IsHistory(ts, ops) && k < |ops|
    ensures Does(ts[k], ops[k], Refusal(ts[k], ops[k]), ts[k + 1])
  {
    assert StepsTo(ts[k], ops[k], ts[k + 1]);
    StepMeans(ts[k], ops[k]);
  }

  /** Only an accepted call adds evidence, and it adds what it was given. */
  lemma {:induction false} EvidenceStep(ts: seq<TaskState>, ops: seq<Op>, k: nat)
    requires IsHistory(ts, ops) && k < |ops|
    ensures
      if ops[k].RecordEvidence? && Recorded(ts, ops, k, ops[k].normalize(ops[k].record.kind))
      then ts[k + 1].evidence == ts[k].evidence
             + [Record(ops[k].normalize(ops[k].record.kind), ops[k].record.status, ops[k].record.subject)]
      else ts[k + 1].evidence == ts[k].evidence
  {
    StepOfHistory(ts, ops, k);
  }

  /** Every record of a task was put there by an accepted call, as given. */
  lemma {:induction false} EvidenceIsTestimony(ts: seq<TaskState>, ops: seq<Op>, k: nat, m: nat) returns (j: nat)
    requires IsHistory(ts, ops) && k < |ts| && m < |ts[k].evidence|
    ensures j < k && Recorded(ts, ops, j, ts[k].evidence[m].kind) && |ts[j].evidence| == m
    ensures StoredAt(ts, ops, j, ts[k].evidence[m].kind, k)
  {
    assert k > 0;
    EvidenceStep(ts, ops, k - 1);
    if m < |ts[k - 1].evidence| {
      j := EvidenceIsTestimony(ts, ops, k - 1, m);
    } else {
      j := k - 1;
    }
  }

  lemma {:induction false} TestimonyIsKept(ts: seq<TaskState>, ops: seq<Op>, j: nat, kind: string, k: nat)
    requires IsHistory(ts, ops) && j < k < |ts| && Recorded(ts, ops, j, kind)
    ensures StoredAt(ts, ops, j, kind, k)
  {
    EvidenceStep(ts, ops, j);
    RecordsOnlyGrow(ts, ops, j + 1, k);
  }

  /** The last accepted call about the kind before `k`. */
  ghost predicate LastTestimony(ts: seq<TaskState>, ops: seq<Op>, j: nat, kind: string, k: nat)
    requires k <= |ops| && k <= |ts|
  {
    && j < k && Recorded(ts, ops, j, kind)
    && forall i: nat | j < i < k :: !Recorded(ts, ops, i, kind)
  }

  lemma {:induction false} NewestIsLastTestimony(ts: seq<TaskState>, ops: seq<Op>, k: nat, kind: string, m: nat)
    returns (j: nat)
    requires IsHistory(ts, ops) && k < |ts| && IsLast(ts[k].evidence, kind, m)
    ensures LastTestimony(ts, ops, j, kind, k)
    ensures ts[k].evidence[m] == Record(kind, ops[j].record.status, ops[j].record.subject)
  {
    j := EvidenceIsTestimony(ts, ops, k, m);
    forall i: nat | j < i < k ensures !Recorded(ts, ops, i, kind) {
      if Recorded(ts, ops, i, kind) {
        LaterTestimony(ts, ops, j, i, k, kind);
      }
    }
  }

  lemma {:induction false} LaterTestimony(ts: seq<TaskState>, ops: seq<Op>, j: nat, i: nat, k: nat, kind: string)
    requires IsHistory(ts, ops) && j < i < k < |ts| && Recorded(ts, ops, j, kind) && Recorded(ts, ops, i, kind)
    ensures |ts[j].evidence| < |ts[i].evidence| < |ts[k].evidence|
    ensures ts[k].evidence[|ts[i].evidence|].kind == kind
  {
    TestimonyIsKept(ts, ops, j, kind, i);
    TestimonyIsKept(ts, ops, i, kind, k);
  }

  /** So a completed task with a contract was told so: for every required kind some caller recorded a
      PASS on its final commit, and no later accepted call said anything else of that kind. */
  lemma {:induction false} CompletedWasTold(ts: seq<TaskState>, ops: seq<Op>, k: nat, kind: string) returns (j: nat)
    requires IsHistory(ts, ops) && k < |ts| && ts[k].status == Completed
    requires ts[k].contract.Some? && kind in ts[k].contract.value
    ensures LastTestimony(ts, ops, j, kind, k)
    ensures ops[j].record.status == "PASS" && ops[j].record.subject == ts[k].finalCommit
  {
    CompletedMeetsItsContract(ts, ops, k, kind);
    var m: nat :| IsLast(ts[k].evidence, kind, m)
                  && ts[k].evidence[m].subject == ts[k].finalCommit && ts[k].evidence[m].status == "PASS";
    j := NewestIsLastTestimony(ts, ops, k, kind, m);
  }

  /** Nothing is forgotten on the way: registered runs and recorded evidence only grow. */
  lemma {:induction false} RecordsOnlyGrow(ts: seq<TaskState>, ops: seq<Op>, j: nat, k: nat)
    requires IsHistory(ts, ops) && j <= k < |ts|
    ensures Grows(ts[j], ts[k])
    decreases k - j
  {
    if j == k {
      assert ts[j] == ts[k];
    } else {
      RecordsOnlyGrow(ts, ops, j, k - 1);
      HistoryStep(ts, ops, k - 1);
      GrowsFor(ts[j], ts[k - 1], ts[k]);
    }
  }
}
