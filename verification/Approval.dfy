/** Approval requests and grants of one task: who may run what, and how often. */
module Approval {
  import opened Base

  /** What the policy oracle says about an operation. */
  datatype Policy = Allow | Deny | Ask(rule: string, scope: string)

  datatype RequestStatus = Pending | AwaitingUser | Approved | Denied

  datatype Decision = AllowOnce | AllowTask | DenyIt | AskUser

  datatype Request = Request(
    id: string,
    status: RequestStatus,
    rule: string,
    scope: string,
    fingerprint: string,
    decision: Option<Decision>)

  datatype GrantKind = Once | WholeTask

  datatype Grant = Grant(approval: string, kind: GrantKind, scope: string, fingerprint: string)

  datatype Ledger = Ledger(active: bool, approvals: seq<Request>, grants: seq<Grant>)

  datatype Answer =
    | Allowed(grant: Option<Grant>)
    | PolicyDenied
    | TaskNotActive
    | Required(request: Request)

  datatype RespondError = InvalidDecision | RespondNotActive | ApprovalNotFound | AlreadyResolved

  predicate IsOpen(a: Request) {
    a.status == Pending || a.status == AwaitingUser
  }

  predicate CoversTask(g: Grant, scope: string) {
    g.kind == WholeTask && g.scope == scope
  }

  predicate CoversOnce(g: Grant, fingerprint: string, scope: string) {
    g.kind == Once && g.fingerprint == fingerprint && g.scope == scope
  }

  predicate Asks(a: Request, fingerprint: string, rule: string) {
    a.fingerprint == fingerprint && a.rule == rule && IsOpen(a)
  }

  function Without<T>(s: seq<T>, k: nat): seq<T>
    requires k < |s|
  {
    s[..k] + s[k + 1..]
  }

  function TaskGrant(l: Ledger, scope: string): (k: nat)
    ensures k <= |l.grants|
  {
    FirstWhere(l.grants, (g: Grant) => CoversTask(g, scope))
  }

  function OnceGrant(l: Ledger, fingerprint: string, scope: string): (k: nat)
    ensures k <= |l.grants| && (k < |l.grants| ==> CoversOnce(l.grants[k], fingerprint, scope))
  {
    FirstWhere(l.grants, (g: Grant) => CoversOnce(g, fingerprint, scope))
  }

  function OpenRequest(l: Ledger, fingerprint: string, rule: string): (k: nat)
    ensures k <= |l.approvals| && (k < |l.approvals| ==> Asks(l.approvals[k], fingerprint, rule))
    ensures k == |l.approvals| ==> forall j | 0 <= j < |l.approvals| :: !Asks(l.approvals[j], fingerprint, rule)
  {
    FirstWhere(l.approvals, (a: Request) => Asks(a, fingerprint, rule))
  }

  function RequestById(l: Ledger, id: string): (k: nat)
    ensures k <= |l.approvals| && (k < |l.approvals| ==> l.approvals[k].id == id)
    ensures k == |l.approvals| ==> forall j | 0 <= j < |l.approvals| :: l.approvals[j].id != id
  {
    FirstWhere(l.approvals, (a: Request) => a.id == id)
  }

  function NewRequest(policy: Policy, fingerprint: string, id: string): Request
    requires policy.Ask?
  {
    Request(id, Pending, policy.rule, policy.scope, fingerprint, None)
  }

  /** Authorizing one operation: the new ledger and the answer. */
  function Authorized(l: Ledger, policy: Policy, fingerprint: string, id: string): (Ledger, Answer) {
    match policy
    case Allow => (l, Allowed(None))
    case Deny => (l, PolicyDenied)
    case Ask(rule, scope) =>
      var t, o, r := TaskGrant(l, scope), OnceGrant(l, fingerprint, scope), OpenRequest(l, fingerprint, rule);
      if !l.active then (l, TaskNotActive)
      else if t < |l.grants| then (l, Allowed(Some(l.grants[t])))
      else if o < |l.grants| then (l.(grants := Without(l.grants, o)), Allowed(Some(l.grants[o])))
      else if r < |l.approvals| then (l, Required(l.approvals[r]))
      else
        (l.(approvals := l.approvals + [NewRequest(policy, fingerprint, id)]),
         Required(NewRequest(policy, fingerprint, id)))
  }

  function StatusAfter(d: Decision): RequestStatus {
    match d
    case AskUser => AwaitingUser
    case DenyIt => RequestStatus.Denied
    case AllowOnce | AllowTask => Approved
  }

  function GrantFor(a: Request, d: Decision): Option<Grant> {
    match d
    case AllowOnce => Some(Grant(a.id, Once, a.scope, a.fingerprint))
    case AllowTask => Some(Grant(a.id, WholeTask, a.scope, a.fingerprint))
    case _ => None
  }

  function AsSeq<T>(o: Option<T>): seq<T> {
    if o.Some? then [o.value] else []
  }

  function Answered(a: Request, d: Decision): Request {
    a.(status := StatusAfter(d), decision := Some(d))
  }

  function RespondRefusal(l: Ledger, id: string, d: Option<Decision>): Option<RespondError> {
    var k := RequestById(l, id);
    if d.None? then Some(InvalidDecision)
    else if !l.active then Some(RespondNotActive)
    else if k == |l.approvals| then Some(ApprovalNotFound)
    else if !IsOpen(l.approvals[k]) then Some(AlreadyResolved)
    else None
  }

  /** Responding to one request: its new state and, on an approval, one more grant. */
  function Responded(l: Ledger, id: string, d: Option<Decision>): Ledger {
    if RespondRefusal(l, id, d).Some? then l
    else
      var k := RequestById(l, id);
      l.(approvals := l.approvals[k := Answered(l.approvals[k], d.value)],
         grants := l.grants + AsSeq(GrantFor(l.approvals[k], d.value)))
  }

  function ParseDecision(text: string): Option<Decision> {
    if text == "ALLOW_ONCE" then Some(AllowOnce)
    else if text == "ALLOW_TASK" then Some(AllowTask)
    else if text == "DENY" then Some(DenyIt)
    else if text == "ASK_USER" then Some(AskUser)
    else None
  }

  // ----- What the two calls do, said without the functions above -----

  /** The first grant that covers the operation for the whole task, or once. */
  ghost predicate FirstTaskGrant(l: Ledger, scope: string, k: nat) {
    && k < |l.grants| && l.grants[k].kind == WholeTask && l.grants[k].scope == scope
    && forall j | 0 <= j < k :: l.grants[j].kind != WholeTask || l.grants[j].scope != scope
  }

  ghost predicate FirstOnceGrant(l: Ledger, fingerprint: string, scope: string, k: nat) {
    && k < |l.grants| && l.grants[k] == Grant(l.grants[k].approval, Once, scope, fingerprint)
    && forall j | 0 <= j < k ::
         l.grants[j].kind != Once || l.grants[j].scope != scope || l.grants[j].fingerprint != fingerprint
  }

  ghost predicate Granted(l: Ledger, fingerprint: string, scope: string) {
    exists g | g in l.grants :: g.scope == scope && (g.kind == WholeTask || g.fingerprint == fingerprint)
  }

  ghost predicate GrantedForTask(l: Ledger, scope: string) {
    exists g | g in l.grants :: g.scope == scope && g.kind == WholeTask
  }

  ghost predicate FirstOpen(l: Ledger, fingerprint: string, rule: string, k: nat) {
    && k < |l.approvals| && OpenFor(l.approvals[k], fingerprint, rule)
    && forall j | 0 <= j < k :: !OpenFor(l.approvals[j], fingerprint, rule)
  }

  ghost predicate OpenFor(a: Request, fingerprint: string, rule: string) {
    a.fingerprint == fingerprint && a.rule == rule && a.status in {Pending, AwaitingUser}
  }

  /** The policy allows or denies by itself; what it asks about needs an active task and a grant, and
      is put to whoever decides if there is none: once, and again only when that is settled. */
  ghost predicate Answers(l: Ledger, policy: Policy, fingerprint: string, id: string, l': Ledger, answer: Answer) {
    && (answer == PolicyDenied <==> policy.Deny?)
    && (answer == TaskNotActive <==> policy.Ask? && !l.active)
    && (answer.Allowed? <==>
          policy.Allow? || (policy.Ask? && l.active && Granted(l, fingerprint, policy.scope)))
    && (policy.Allow? ==> answer == Allowed(None))
    && l' == l.(approvals := l'.approvals, grants := l'.grants)
    && (policy.Ask? && l.active ==> AsksFor(l, policy, fingerprint, id, l', answer))
    && (!policy.Ask? || !l.active ==> l' == l)
  }

  ghost predicate AsksFor(l: Ledger, policy: Policy, fingerprint: string, id: string, l': Ledger, answer: Answer)
    requires policy.Ask?
  {
    if GrantedForTask(l, policy.scope) then
      l' == l && exists k: nat :: FirstTaskGrant(l, policy.scope, k) && answer == Allowed(Some(l.grants[k]))
    else if Granted(l, fingerprint, policy.scope) then
      exists k: nat :: FirstOnceGrant(l, fingerprint, policy.scope, k) && UsesUp(l, k, l', answer)
    else if exists k: nat :: FirstOpen(l, fingerprint, policy.rule, k) then
      l' == l && exists k: nat :: FirstOpen(l, fingerprint, policy.rule, k) && answer == Required(l.approvals[k])
    else
      var request := Request(id, Pending, policy.rule, policy.scope, fingerprint, None);
      l' == l.(approvals := l.approvals + [request]) && answer == Required(request)
  }

  ghost predicate UsesUp(l: Ledger, k: nat, l': Ledger, answer: Answer) {
    && k < |l.grants| && answer == Allowed(Some(l.grants[k]))
    && l' == l.(grants := l.grants[..k] + l.grants[k + 1..])
  }

  ghost predicate FirstNamed(l: Ledger, id: string, k: nat) {
    k < |l.approvals| && l.approvals[k].id == id && forall j | 0 <= j < k :: l.approvals[j].id != id
  }

  /** The four refusals, and otherwise the request is answered as decided and, if approved, granted. */
  ghost predicate Decides(l: Ledger, id: string, d: Option<Decision>, refused: Option<RespondError>, l': Ledger) {
    && (refused == Some(InvalidDecision) <==> d.None?)
    && (refused == Some(RespondNotActive) <==> d.Some? && !l.active)
    && (refused == Some(ApprovalNotFound) <==> d.Some? && l.active && forall k: nat :: !FirstNamed(l, id, k))
    && (refused == Some(AlreadyResolved) <==>
          && d.Some? && l.active
          && exists k: nat :: FirstNamed(l, id, k) && l.approvals[k].status in {Approved, RequestStatus.Denied})
    && (refused.Some? ==> l' == l)
    && (refused.None? ==> d.Some? && exists k: nat :: FirstNamed(l, id, k) && Settles(l, k, d.value, l'))
  }

  ghost predicate Settles(l: Ledger, k: nat, d: Decision, l': Ledger) {
    && k < |l.approvals| && l.active
    && (var a := l.approvals[k];
        && a.status in {Pending, AwaitingUser}
        && match d
           case AllowOnce =>
             && l' == Ledger(true, l.approvals[k := a.(status := Approved, decision := Some(AllowOnce))],
                             l.grants + [Grant(a.id, Once, a.scope, a.fingerprint)])
           case AllowTask =>
             && l' == Ledger(true, l.approvals[k := a.(status := Approved, decision := Some(AllowTask))],
                             l.grants + [Grant(a.id, WholeTask, a.scope, a.fingerprint)])
           case DenyIt =>
             l' == l.(approvals := l.approvals[k := a.(status := RequestStatus.Denied, decision := Some(DenyIt))])
           case AskUser =>
             l' == l.(approvals := l.approvals[k := a.(status := AwaitingUser, decision := Some(AskUser))]))
  }

  /** What the ledger can come to by one call. */
  ghost predicate Asked(l: Ledger, policy: Policy, fingerprint: string, id: string, l': Ledger) {
    exists answer :: Answers(l, policy, fingerprint, id, l', answer)
  }

  ghost predicate Decided(l: Ledger, id: string, d: Option<Decision>, l': Ledger) {
    exists refused :: Decides(l, id, d, refused, l')
  }

  lemma {:induction false} GrantsMean(l: Ledger, fingerprint: string, scope: string)
    ensures TaskGrant(l, scope) < |l.grants| <==> GrantedForTask(l, scope)
    ensures TaskGrant(l, scope) < |l.grants| ==> FirstTaskGrant(l, scope, TaskGrant(l, scope))
    ensures OnceGrant(l, fingerprint, scope) < |l.grants| ==>
      FirstOnceGrant(l, fingerprint, scope, OnceGrant(l, fingerprint, scope))
    ensures Granted(l, fingerprint, scope) <==>
      TaskGrant(l, scope) < |l.grants| || OnceGrant(l, fingerprint, scope) < |l.grants|
  {
    var t, o := TaskGrant(l, scope), OnceGrant(l, fingerprint, scope);
    assert t < |l.grants| ==> l.grants[t] in l.grants;
    assert o < |l.grants| ==> l.grants[o] in l.grants;
  }

  lemma {:induction false} AuthorizedMeans(l: Ledger, policy: Policy, fingerprint: string, id: string)
    ensures var (l', answer) := Authorized(l, policy, fingerprint, id); Answers(l, policy, fingerprint, id, l', answer)
  {
    if policy.Ask? {
      GrantsMean(l, fingerprint, policy.scope);
      var o, r := OnceGrant(l, fingerprint, policy.scope), OpenRequest(l, fingerprint, policy.rule);
      var (l', answer) := Authorized(l, policy, fingerprint, id);
      assert r < |l.approvals| ==> FirstOpen(l, fingerprint, policy.rule, r);
      assert l.active && !GrantedForTask(l, policy.scope) && o < |l.grants| ==> UsesUp(l, o, l', answer);
    }
  }

  lemma {:induction false} RespondedMeans(l: Ledger, id: string, d: Option<Decision>)
    ensures Decides(l, id, d, RespondRefusal(l, id, d), Responded(l, id, d))
  {
    var k := RequestById(l, id);
    if k < |l.approvals| {
      assert FirstNamed(l, id, k);
      if RespondRefusal(l, id, d).None? {
        assert Settles(l, k, d.value, Responded(l, id, d));
      }
    }
  }

  lemma {:induction false} DecisionsMean(text: string)
    ensures ParseDecision(text) == Some(AllowOnce) <==> text == "ALLOW_ONCE"
    ensures ParseDecision(text) == Some(AllowTask) <==> text == "ALLOW_TASK"
    ensures ParseDecision(text) == Some(DenyIt) <==> text == "DENY"
    ensures ParseDecision(text) == Some(AskUser) <==> text == "ASK_USER"
  {
  }

  // ----- The task document's approval state, updated in place -----

  class ApprovalState {
    var active: bool
    var approvals: seq<Request>
    var grants: seq<Grant>

    function State(): Ledger
      reads this
    {
      Ledger(active, approvals, grants)
    }

    constructor ()
      ensures State() == Ledger(true, [], [])
    {
      active, approvals, grants := true, [], [];
    }

    method Authorize(policy: Policy, fingerprint: string, id: string) returns (answer: Answer)
      modifies this
      ensures (State(), answer) == Authorized(old(State()), policy, fingerprint, id)
      ensures Answers(old(State()), policy, fingerprint, id, State(), answer)
    {
      AuthorizedMeans(State(), policy, fingerprint, id);
      if policy.Allow? {
        return Allowed(None);
      }
      if policy.Deny? {
        return PolicyDenied;
      }
      if !active {
        return TaskNotActive;
      }
      var taskGrant := TaskGrant(State(), policy.scope);
      if taskGrant < |grants| {
        return Allowed(Some(grants[taskGrant]));
      }
      var onceIndex := OnceGrant(State(), fingerprint, policy.scope);
      if onceIndex < |grants| {
        var grant := grants[onceIndex];
        grants := grants[..onceIndex] + grants[onceIndex + 1..];
        return Allowed(Some(grant));
      }
      var existing := OpenRequest(State(), fingerprint, policy.rule);
      if existing < |approvals| {
        return Required(approvals[existing]);
      }
      var request := Request(id, Pending, policy.rule, policy.scope, fingerprint, None);
      approvals := approvals + [request];
      return Required(request);
    }

    method Respond(id: string, decision: string) returns (refused: Option<RespondError>)
      modifies this
      ensures refused == RespondRefusal(old(State()), id, ParseDecision(decision))
      ensures State() == Responded(old(State()), id, ParseDecision(decision))
      ensures Decides(old(State()), id, ParseDecision(decision), refused, State())
      ensures refused == Some(InvalidDecision) <==> decision !in {"ALLOW_ONCE", "ALLOW_TASK", "DENY", "ASK_USER"}
    {
      RespondedMeans(State(), id, ParseDecision(decision));
      var parsed := ParseDecision(decision);
      if parsed.None? {
        return Some(InvalidDecision);
      }
      if !active {
        return Some(RespondNotActive);
      }
      var k := RequestById(State(), id);
      if k == |approvals| {
        return Some(ApprovalNotFound);
      }
      var approval := approvals[k];
      if approval.status != Pending && approval.status != AwaitingUser {
        return Some(AlreadyResolved);
      }
      refused := None;
      approval := approval.(decision := parsed);
      if decision == "ASK_USER" {
        approvals := approvals[k := approval.(status := AwaitingUser)];
        return;
      }
      if decision == "DENY" {
        approvals := approvals[k := approval.(status := RequestStatus.Denied)];
        return;
      }
      approvals := approvals[k := approval.(status := Approved)];
      var kind := if decision == "ALLOW_ONCE" then Once else WholeTask;
      grants := grants + [Grant(id, kind, approval.scope, approval.fingerprint)];
    }
  }

  // ----- Runs -----

  /** The ledger with a record of everything answered so far: the one-time grants issued,
      used and dropped, and the requests resolved and granted. */
  datatype Books = Books(
    ledger: Ledger,
    issued: multiset<(string, string)>,
    consumed: multiset<(string, string)>,
    dropped: multiset<(string, string)>,
    resolved: seq<string>,
    granted: seq<string>)

  datatype Event =
    | Authorizes(policy: Policy, fingerprint: string, id: string)
    | Responds(id: string, decision: Option<Decision>)
    | Finalizes

  function OnceKey(g: Grant): multiset<(string, string)> {
    if g.kind == Once then multiset{(g.fingerprint, g.scope)} else multiset{}
  }

  function OnceKeys(grants: seq<Grant>): multiset<(string, string)> {
    if grants == [] then multiset{} else OnceKey(grants[0]) + OnceKeys(grants[1..])
  }

  /** Request identifiers are fresh. */
  ghost predicate Enabled(b: Books, e: Event) {
    e.Authorizes? ==> forall k | 0 <= k < |b.ledger.approvals| :: b.ledger.approvals[k].id != e.id
  }

  function AfterAuthorize(b: Books, policy: Policy, fingerprint: string, id: string): Books {
    var (l, answer) := Authorized(b.ledger, policy, fingerprint, id);
    var used := if answer.Allowed? && answer.grant.Some? then OnceKey(answer.grant.value) else multiset{};
    b.(ledger := l, consumed := b.consumed + used)
  }

  function AfterRespond(b: Books, id: string, d: Option<Decision>): Books {
    var l := Responded(b.ledger, id, d);
    if RespondRefusal(b.ledger, id, d).Some? then b.(ledger := l)
    else
      var a := b.ledger.approvals[RequestById(b.ledger, id)];
      var grant := GrantFor(a, d.value);
      b.(ledger := l,
         issued := b.issued + OnceKeys(AsSeq(grant)),
         resolved := b.resolved + (if d.value == AskUser then [] else [id]),
         granted := b.granted + (if grant.Some? then [id] else []))
  }

  /** Finishing or cancelling the Task takes every remaining grant away. */
  function AfterFinalize(b: Books): Books {
    if !b.ledger.active then b
    else b.(ledger := b.ledger.(active := false, grants := []), dropped := b.dropped + OnceKeys(b.ledger.grants))
  }

  function Apply(b: Books, e: Event): Books {
    match e
    case Authorizes(policy, fingerprint, id) => AfterAuthorize(b, policy, fingerprint, id)
    case Responds(id, d) => AfterRespond(b, id, d)
    case Finalizes => AfterFinalize(b)
  }

  predicate Init(b: Books) {
    b == Books(Ledger(true, [], []), multiset{}, multiset{}, multiset{}, [], [])
  }

  ghost predicate StepsTo(b: Books, e: Event, b': Books) {
    Enabled(b, e) && b' == Apply(b, e)
  }

  ghost predicate IsRun(bs: seq<Books>, es: seq<Event>) {
    && |bs| == |es| + 1 && Init(bs[0])
    && forall k {:trigger es[k]} | 0 <= k < |es| :: StepsTo(bs[k], es[k], bs[k + 1])
  }

  // ----- What every run keeps -----

  ghost predicate Distinct(ids: seq<string>) {
    forall i, j | 0 <= i < j < |ids| :: ids[i] != ids[j]
  }

  ghost predicate Balanced(b: Books) {
    b.issued == b.consumed + OnceKeys(b.ledger.grants) + b.dropped
  }

  ghost predicate ResolvedIn(l: Ledger, id: string) {
    exists k :: 0 <= k < |l.approvals| && l.approvals[k].id == id && !IsOpen(l.approvals[k])
  }

  ghost predicate ApprovedBy(a: Request, g: Grant) {
    && a.id == g.approval && a.status == Approved && a.scope == g.scope && a.fingerprint == g.fingerprint
    && a.decision == Some(if g.kind == Once then AllowOnce else AllowTask)
  }

  ghost predicate HasApproval(l: Ledger, g: Grant) {
    exists k :: 0 <= k < |l.approvals| && ApprovedBy(l.approvals[k], g)
  }

  ghost predicate UniqueIds(l: Ledger) {
    forall i, j | 0 <= i < j < |l.approvals| :: l.approvals[i].id != l.approvals[j].id
  }

  /** No two open requests ask the same thing under the same rule. */
  ghost predicate OneOpenRequest(l: Ledger) {
    forall i, j | 0 <= i < j < |l.approvals| && IsOpen(l.approvals[i]) && IsOpen(l.approvals[j]) ::
      l.approvals[i].fingerprint != l.approvals[j].fingerprint || l.approvals[i].rule != l.approvals[j].rule
  }

  ghost predicate LedgerOk(l: Ledger) {
    && UniqueIds(l) && OneOpenRequest(l)
    && (forall k | 0 <= k < |l.grants| :: HasApproval(l, l.grants[k]))
    && (!l.active ==> l.grants == [])
  }

  ghost predicate HistoryOk(b: Books) {
    && Distinct(b.resolved) && Distinct(b.granted)
    && (forall k | 0 <= k < |b.resolved| :: ResolvedIn(b.ledger, b.resolved[k]))
    && (forall k | 0 <= k < |b.granted| :: ResolvedIn(b.ledger, b.granted[k]))
  }

  /** The requests resolved and granted are those the ledger says are. */
  ghost predicate Listed(b: Books) {
    forall k | 0 <= k < |b.ledger.approvals| ::
      && (b.ledger.approvals[k].id in b.resolved <==> b.ledger.approvals[k].status in {Approved, RequestStatus.Denied})
      && (b.ledger.approvals[k].id in b.granted <==> b.ledger.approvals[k].status == Approved)
  }

  ghost function ApprovedKey(a: Request): multiset<(string, string)> {
    if a.status == Approved && a.decision == Some(AllowOnce) then multiset{(a.fingerprint, a.scope)} else multiset{}
  }

  /** What the requests approved for one use were for. */
  ghost function ApprovedKeys(approvals: seq<Request>): multiset<(string, string)> {
    if approvals == [] then multiset{} else ApprovedKey(approvals[0]) + ApprovedKeys(approvals[1..])
  }

  ghost predicate BooksOk(b: Books) {
    && Balanced(b) && LedgerOk(b.ledger) && HistoryOk(b) && (b.ledger.active ==> b.dropped == multiset{})
    && Listed(b) && b.issued == ApprovedKeys(b.ledger.approvals)
  }

  /** Settling an open request adds just what it is approved for. */
  lemma {:induction false} ApprovedKeysSettled(approvals: seq<Request>, k: nat, r: Request)
    requires k < |approvals| && ApprovedKey(approvals[k]) == multiset{}
    ensures ApprovedKeys(approvals[k := r]) == ApprovedKeys(approvals) + ApprovedKey(r)
  {
    if k == 0 {
      assert approvals[0 := r][1..] == approvals[1..];
    } else {
      assert approvals[k := r][1..] == approvals[1..][k - 1 := r];
      ApprovedKeysSettled(approvals[1..], k - 1, r);
    }
  }

  lemma {:induction false} ApprovedKeysPushed(approvals: seq<Request>, r: Request)
    requires r.status == Pending
    ensures ApprovedKeys(approvals + [r]) == ApprovedKeys(approvals)
  {
    if approvals == [] {
      assert ApprovedKeys([] + [r]) == ApprovedKey(r) + ApprovedKeys([]);
    } else {
      assert (approvals + [r])[1..] == approvals[1..] + [r];
      ApprovedKeysPushed(approvals[1..], r);
    }
  }

  lemma {:induction false} PushedIsNotListed(b: Books, r: Request)
    requires HistoryOk(b) && Listed(b) && r.status == Pending
    requires forall k | 0 <= k < |b.ledger.approvals| :: b.ledger.approvals[k].id != r.id
    ensures Listed(b.(ledger := b.ledger.(approvals := b.ledger.approvals + [r])))
  {
    assert forall k | 0 <= k < |b.resolved| :: ResolvedIn(b.ledger, b.resolved[k]) && b.resolved[k] != r.id;
    assert forall k | 0 <= k < |b.granted| :: ResolvedIn(b.ledger, b.granted[k]) && b.granted[k] != r.id;
  }

  lemma {:induction false} AuthorizeLists(b: Books, policy: Policy, fingerprint: string, id: string)
    requires HistoryOk(b) && Listed(b) && Enabled(b, Authorizes(policy, fingerprint, id))
    requires b.issued == ApprovedKeys(b.ledger.approvals)
    ensures var b' := AfterAuthorize(b, policy, fingerprint, id);
            Listed(b') && b'.issued == ApprovedKeys(b'.ledger.approvals)
  {
    var l' := Authorized(b.ledger, policy, fingerprint, id).0;
    if l'.approvals != b.ledger.approvals {
      var r := NewRequest(policy, fingerprint, id);
      ApprovedKeysPushed(b.ledger.approvals, r);
      PushedIsNotListed(b, r);
    }
  }

  lemma {:induction false} RespondIssues(b: Books, id: string, d: Decision)
    requires RespondRefusal(b.ledger, id, Some(d)).None? && b.issued == ApprovedKeys(b.ledger.approvals)
    ensures var b' := AfterRespond(b, id, Some(d)); b'.issued == ApprovedKeys(b'.ledger.approvals)
  {
    var k := RequestById(b.ledger, id);
    var a := b.ledger.approvals[k];
    ApprovedKeysSettled(b.ledger.approvals, k, Answered(a, d));
    if GrantFor(a, d).Some? {
      OnceKeysOne(GrantFor(a, d).value);
    }
  }

  lemma {:induction false} RespondLists(b: Books, id: string, d: Decision)
    requires UniqueIds(b.ledger) && Listed(b) && RespondRefusal(b.ledger, id, Some(d)).None?
    ensures Listed(AfterRespond(b, id, Some(d)))
  {
    var k, b' := RequestById(b.ledger, id), AfterRespond(b, id, Some(d));
    var a := b.ledger.approvals[k];
    forall j | 0 <= j < |b'.ledger.approvals|
      ensures b'.ledger.approvals[j].id in b'.resolved <==>
              b'.ledger.approvals[j].status in {Approved, RequestStatus.Denied}
      ensures b'.ledger.approvals[j].id in b'.granted <==> b'.ledger.approvals[j].status == Approved
    {
      var r := b.ledger.approvals[j];
      assert r.id in b.resolved <==> r.status in {Approved, RequestStatus.Denied};
      assert j != k ==> r.id != id && b'.ledger.approvals[j] == r;
    }
  }

  lemma {:induction false} OnceKeysOne(g: Grant)
    ensures OnceKeys([g]) == OnceKey(g)
  {
    assert OnceKeys([g]) == OnceKey(g) + OnceKeys([]);
  }

  lemma {:induction false} OnceKeysConcat(a: seq<Grant>, b: seq<Grant>)
    ensures OnceKeys(a + b) == OnceKeys(a) + OnceKeys(b)
  {
    if a == [] {
      assert a + b == b;
    } else {
      assert (a + b)[1..] == a[1..] + b;
      OnceKeysConcat(a[1..], b);
    }
  }

  lemma {:induction false} OnceKeysAround(a: seq<Grant>, g: Grant, c: seq<Grant>)
    ensures OnceKeys(a + ([g] + c)) == OnceKeys(a + c) + OnceKey(g)
  {
    OnceKeysConcat(a, [g] + c);
    OnceKeysConcat(a, c);
    assert ([g] + c)[1..] == c;
  }

  lemma {:induction false} OnceKeysWithout(grants: seq<Grant>, k: nat)
    requires k < |grants|
    ensures OnceKeys(grants) == OnceKeys(Without(grants, k)) + OnceKey(grants[k])
  {
    OnceKeysAround(grants[..k], grants[k], grants[k + 1..]);
    assert grants == grants[..k] + ([grants[k]] + grants[k + 1..]);
  }

  /** A ledger whose requests only move forward keeps its resolved ones and their grants. */
  ghost predicate Extends(l: Ledger, l': Ledger) {
    && |l.approvals| <= |l'.approvals|
    && forall k | 0 <= k < |l.approvals| ::
         && l'.approvals[k].id == l.approvals[k].id
         && (!IsOpen(l.approvals[k]) ==> l'.approvals[k] == l.approvals[k])
  }

  lemma {:induction false} ExtendsKeeps(l: Ledger, l': Ledger)
    requires Extends(l, l')
    ensures forall id | ResolvedIn(l, id) :: ResolvedIn(l', id)
    ensures forall g | HasApproval(l, g) :: HasApproval(l', g)
  {
  }

  lemma {:induction false} HistoryKept(b: Books, l': Ledger)
    requires HistoryOk(b) && Extends(b.ledger, l')
    ensures HistoryOk(b.(ledger := l'))
  {
  }

  lemma {:induction false} GrantsKept(l: Ledger, l': Ledger)
    requires LedgerOk(l) && Extends(l, l') && forall g | g in l'.grants :: g in l.grants
    ensures forall k | 0 <= k < |l'.grants| :: HasApproval(l', l'.grants[k])
  {
    ExtendsKeeps(l, l');
    forall k | 0 <= k < |l'.grants| ensures HasApproval(l', l'.grants[k]) {
      assert l'.grants[k] in l'.grants;
      var j :| 0 <= j < |l.grants| && l.grants[j] == l'.grants[k];
      assert HasApproval(l, l.grants[j]);
    }
  }

  lemma {:induction false} AuthorizeLedger(b: Books, policy: Policy, fingerprint: string, id: string)
    requires LedgerOk(b.ledger) && Enabled(b, Authorizes(policy, fingerprint, id))
    ensures
      var l' := Authorized(b.ledger, policy, fingerprint, id).0;
      && LedgerOk(l') && Extends(b.ledger, l') && l'.active == b.ledger.active
  {
    var l, l' := b.ledger, Authorized(b.ledger, policy, fingerprint, id).0;
    GrantsKept(l, l');
  }

  lemma {:induction false} AuthorizeBalances(b: Books, policy: Policy, fingerprint: string, id: string)
    requires Balanced(b)
    ensures Balanced(AfterAuthorize(b, policy, fingerprint, id))
  {
    if policy.Ask? {
      var t, o := TaskGrant(b.ledger, policy.scope), OnceGrant(b.ledger, fingerprint, policy.scope);
      if b.ledger.active && t == |b.ledger.grants| && o < |b.ledger.grants| {
        OnceKeysWithout(b.ledger.grants, o);
      }
    }
  }

  lemma {:induction false} RespondLedger(l: Ledger, id: string, d: Decision)
    requires LedgerOk(l) && RespondRefusal(l, id, Some(d)).None?
    ensures
      var l' := Responded(l, id, Some(d));
      && LedgerOk(l') && Extends(l, l') && l'.active
      && (d != AskUser ==> ResolvedIn(l', id)) && !ResolvedIn(l, id)
  {
    var l' := Responded(l, id, Some(d));
    var k := RequestById(l, id);
    assert l'.approvals[k] == Answered(l.approvals[k], d);
    ExtendsKeeps(l, l');
    forall j | 0 <= j < |l'.grants| ensures HasApproval(l', l'.grants[j]) {
      if j < |l.grants| {
        assert HasApproval(l, l.grants[j]);
      } else {
        assert ApprovedBy(l'.approvals[k], l'.grants[j]);
      }
    }
  }

  lemma {:induction false} DistinctPush(b: Books, ids: seq<string>, id: string)
    requires Distinct(ids) && !ResolvedIn(b.ledger, id)
    requires forall k | 0 <= k < |ids| :: ResolvedIn(b.ledger, ids[k])
    ensures Distinct(ids + [id])
  {
  }

  lemma {:induction false} RespondBalances(b: Books, id: string, d: Option<Decision>)
    requires Balanced(b)
    ensures Balanced(AfterRespond(b, id, d))
  {
    if RespondRefusal(b.ledger, id, d).None? {
      OnceKeysConcat(b.ledger.grants, AsSeq(GrantFor(b.ledger.approvals[RequestById(b.ledger, id)], d.value)));
    }
  }

  lemma {:induction false} RespondHistory(b: Books, id: string, d: Decision)
    requires LedgerOk(b.ledger) && HistoryOk(b) && RespondRefusal(b.ledger, id, Some(d)).None?
    ensures HistoryOk(AfterRespond(b, id, Some(d)))
  {
    RespondLedger(b.ledger, id, d);
    HistoryKept(b, Responded(b.ledger, id, Some(d)));
    DistinctPush(b, b.resolved, id);
    DistinctPush(b, b.granted, id);
  }

  lemma {:induction false} RespondKeeps(b: Books, id: string, d: Option<Decision>)
    requires BooksOk(b)
    ensures BooksOk(AfterRespond(b, id, d))
  {
    RespondBalances(b, id, d);
    if RespondRefusal(b.ledger, id, d).None? {
      RespondLedger(b.ledger, id, d.value);
      RespondHistory(b, id, d.value);
      RespondLists(b, id, d.value);
      RespondIssues(b, id, d.value);
    }
  }

  lemma {:induction false} StepKeepsBooks(b: Books, e: Event)
    requires BooksOk(b) && Enabled(b, e)
    ensures BooksOk(Apply(b, e)) && Extends(b.ledger, Apply(b, e).ledger)
  {
    match e {
      case Authorizes(policy, fingerprint, id) =>
        AuthorizeLedger(b, policy, fingerprint, id);
        AuthorizeBalances(b, policy, fingerprint, id);
        AuthorizeLists(b, policy, fingerprint, id);
        HistoryKept(b, Apply(b, e).ledger);
      case Responds(id, d) =>
        RespondKeeps(b, id, d);
        if RespondRefusal(b.ledger, id, d).None? {
          RespondLedger(b.ledger, id, d.value);
        }
      case Finalizes =>
        HistoryKept(b, Apply(b, e).ledger);
    }
  }

  lemma {:induction false} InitKeepsBooks(b: Books)
    requires Init(b)
    ensures BooksOk(b)
  {
  }

  lemma {:induction false} RunKeepsBooks(bs: seq<Books>, es: seq<Event>, k: nat)
    requires IsRun(bs, es) && k < |bs|
    ensures BooksOk(bs[k])
  {
    if k == 0 {
      InitKeepsBooks(bs[0]);
    } else {
      RunKeepsBooks(bs, es, k - 1);
      assert StepsTo(bs[k - 1], es[k - 1], bs[k]);
      StepKeepsBooks(bs[k - 1], es[k - 1]);
    }
  }

  /** One-time grants are conserved: for each operation and scope, those approved are those
      used plus those still there, until the Task is finalised and the rest are dropped. */
  lemma {:induction false} GrantsAreConserved(bs: seq<Books>, es: seq<Event>, k: nat, key: (string, string))
    requires IsRun(bs, es) && k < |bs|
    ensures
      ApprovedKeys(bs[k].ledger.approvals)[key] ==
      bs[k].consumed[key] + OnceKeys(bs[k].ledger.grants)[key] + bs[k].dropped[key]
    ensures bs[k].ledger.active ==> bs[k].dropped[key] == 0
    ensures !bs[k].ledger.active ==> bs[k].ledger.grants == []
  {
    RunKeepsBooks(bs, es, k);
  }

  /** Each request is resolved at most once and yields at most one grant: those on the lists,
      each there once, are the settled and the approved requests of the ledger. */
  lemma {:induction false} ResolvedOnce(bs: seq<Books>, es: seq<Event>, k: nat)
    requires IsRun(bs, es) && k < |bs|
    ensures Distinct(bs[k].resolved) && Distinct(bs[k].granted) && Listed(bs[k])
  {
    RunKeepsBooks(bs, es, k);
  }

  /** In every run at most one open request asks for an operation under a rule. */
  lemma {:induction false} NoDuplicateOpenRequests(bs: seq<Books>, es: seq<Event>, k: nat)
    requires IsRun(bs, es) && k < |bs|
    ensures OneOpenRequest(bs[k].ledger)
  {
    RunKeepsBooks(bs, es, k);
  }

  /** The request is approved, for the whole task or for this operation. */
  ghost predicate Approves(r: Request, policy: Policy, fingerprint: string)
    requires policy.Ask?
  {
    && r.status == Approved && r.scope == policy.scope
    && (r.decision == Some(AllowTask) || (r.decision == Some(AllowOnce) && r.fingerprint == fingerprint))
  }

  /** In every run an operation is allowed by the policy itself, or while the task is active by some
      approved request of the same scope, for this very operation if it approves one use. */
  lemma {:induction false} AllowedForAReason(
    bs: seq<Books>, es: seq<Event>, k: nat, policy: Policy, fingerprint: string, id: string,
    l': Ledger, answer: Answer)
    requires IsRun(bs, es) && k < |bs| && Answers(bs[k].ledger, policy, fingerprint, id, l', answer)
    requires answer.Allowed?
    ensures !policy.Deny?
    ensures policy.Ask? ==>
      bs[k].ledger.active && exists r :: r in bs[k].ledger.approvals && Approves(r, policy, fingerprint)
  {
    RunKeepsBooks(bs, es, k);
    if policy.Ask? {
      var l := bs[k].ledger;
      var g :| g in l.grants && g.scope == policy.scope && (g.kind == WholeTask || g.fingerprint == fingerprint);
      var j :| 0 <= j < |l.grants| && l.grants[j] == g;
      assert HasApproval(l, l.grants[j]);
      var a :| 0 <= a < |l.approvals| && ApprovedBy(l.approvals[a], g);
      assert Approves(l.approvals[a], policy, fingerprint);
    }
  }

  /** A use of a one-time grant is entered for its operation and scope, and nothing else is. */
  ghost predicate Enters(b: Books, policy: Policy, fingerprint: string, id: string, b': Books) {
    exists answer ::
      && Answers(b.ledger, policy, fingerprint, id, b'.ledger, answer)
      && b'.consumed ==
           if answer.Allowed? && answer.grant.Some? && answer.grant.value.kind == Once
           then b.consumed + multiset{(fingerprint, policy.scope)} else b.consumed
  }

  /** An active task is finalised, and its grants are dropped with it. */
  ghost predicate Ends(l: Ledger, l': Ledger) {
    !l'.active && l'.approvals == l.approvals && (l.active ==> l'.grants == []) && (!l.active ==> l' == l)
  }

  /** What the calls of a run answer and leave is what they mean. */
  lemma {:induction false} RunsMean(bs: seq<Books>, es: seq<Event>, k: nat)
    requires IsRun(bs, es) && k < |es|
    ensures es[k].Authorizes? ==> Enters(bs[k], es[k].policy, es[k].fingerprint, es[k].id, bs[k + 1])
    ensures es[k].Responds? ==>
      Decided(bs[k].ledger, es[k].id, es[k].decision, bs[k + 1].ledger) && bs[k + 1].consumed == bs[k].consumed
    ensures es[k].Finalizes? ==> Ends(bs[k].ledger, bs[k + 1].ledger) && bs[k + 1].consumed == bs[k].consumed
  {
    assert StepsTo(bs[k], es[k], bs[k + 1]);
    match es[k] {
      case Authorizes(policy, fingerprint, id) =>
        AuthorizedMeans(bs[k].ledger, policy, fingerprint, id);
        if policy.Ask? {
          GrantsMean(bs[k].ledger, fingerprint, policy.scope);
        }
      case Responds(id, d) => RespondedMeans(bs[k].ledger, id, d);
      case Finalizes =>
    }
  }
}
