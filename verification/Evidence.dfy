/** Completion contracts and the evidence that meets them. */
module Evidence {
  import opened Base

  const ALLOWED_KINDS: seq<string> := [
    "TARGETED_TESTS", "FULL_SUITE", "STATIC_CHECK", "DIFF_CHECK", "MIGRATION_CHECK", "PROVIDER_CHECK", "REVIEW"]

  datatype Record = Record(kind: string, status: string, subject: Option<string>)

  datatype KindResult = KindResult(kind: string, state: string)

  function Reversed<T>(s: seq<T>): (r: seq<T>)
    ensures |r| == |s|
    ensures forall k | 0 <= k < |s| :: r[k] == s[|s| - 1 - k]
  {
    if s == [] then [] else Reversed(s[1..]) + [s[0]]
  }

  /** The latest record of a kind: the first one from the end. */
  function LatestOf(records: seq<Record>, kind: string): Option<Record> {
    var reversed := Reversed(records);
    var k := FirstWhere(reversed, (r: Record) => r.kind == kind);
    if k == |records| then None else Some(reversed[k])
  }

  function StateOf(records: seq<Record>, kind: string, subject: Option<string>): string {
    var latest := LatestOf(records, kind);
    if latest.None? then "MISSING"
    else if latest.value.subject == subject then latest.value.status
    else "STALE"
  }

  function Evaluated(required: seq<string>, records: seq<Record>, subject: Option<string>): (r: seq<KindResult>)
    ensures |r| == |required|
    ensures forall k | 0 <= k < |required| :: r[k] == KindResult(required[k], StateOf(records, required[k], subject))
  {
    if required == [] then []
    else
      [KindResult(required[0], StateOf(records, required[0], subject))] + Evaluated(required[1..], records, subject)
  }

  predicate Satisfied(required: seq<string>, records: seq<Record>, subject: Option<string>) {
    forall k | 0 <= k < |required| :: Evaluated(required, records, subject)[k].state == "PASS"
  }

  /** Record `i` is the last one of its kind. */
  ghost predicate IsLast(records: seq<Record>, kind: string, i: nat) {
    && i < |records| && records[i].kind == kind
    && forall j | i < j < |records| :: records[j].kind != kind
  }

  lemma {:induction false} LatestIsLast(records: seq<Record>, kind: string, i: nat)
    requires IsLast(records, kind, i)
    ensures LatestOf(records, kind) == Some(records[i])
  {
    var reversed := Reversed(records);
    var k := FirstWhere(reversed, (r: Record) => r.kind == kind);
    assert reversed[|records| - 1 - i] == records[i];
  }

  lemma {:induction false} LastOf(records: seq<Record>, kind: string) returns (i: nat)
    requires LatestOf(records, kind).Some?
    ensures IsLast(records, kind, i)
  {
    var reversed := Reversed(records);
    var k := FirstWhere(reversed, (r: Record) => r.kind == kind);
    i := |records| - 1 - k;
    forall j | i < j < |records| ensures records[j].kind != kind {
      assert reversed[|records| - 1 - j] == records[j];
    }
  }

  /** The newest record of a kind is a PASS on the subject. */
  ghost predicate PassesLast(records: seq<Record>, kind: string, subject: Option<string>) {
    exists i: nat :: IsLast(records, kind, i) && records[i].subject == subject && records[i].status == "PASS"
  }

  lemma {:induction false} PassExactly(records: seq<Record>, kind: string, subject: Option<string>)
    ensures StateOf(records, kind, subject) == "PASS" <==> PassesLast(records, kind, subject)
  {
    if PassesLast(records, kind, subject) {
      var i: nat :| IsLast(records, kind, i) && records[i].subject == subject && records[i].status == "PASS";
      LatestIsLast(records, kind, i);
    }
    if StateOf(records, kind, subject) == "PASS" {
      var i := LastOf(records, kind);
      LatestIsLast(records, kind, i);
    }
  }

  /** A contract is met exactly when the newest record of every required kind is a PASS
      on the given commit; an older PASS does not count once a newer record exists. */
  lemma {:induction false} SatisfiedExactly(required: seq<string>, records: seq<Record>, subject: Option<string>)
    ensures Satisfied(required, records, subject) <==>
            forall kind | kind in required :: PassesLast(records, kind, subject)
  {
    forall kind ensures StateOf(records, kind, subject) == "PASS" <==> PassesLast(records, kind, subject) {
      PassExactly(records, kind, subject);
    }
    var results := Evaluated(required, records, subject);
    if Satisfied(required, records, subject) {
      forall kind | kind in required ensures PassesLast(records, kind, subject) {
        var k :| 0 <= k < |required| && required[k] == kind;
        assert results[k].state == "PASS";
      }
    } else {
      var k :| 0 <= k < |required| && results[k].state != "PASS";
      assert required[k] in required;
    }
  }

  // ----- Contracts -----

  datatype ContractError = UnsupportedKind | EmptyContract

  function Normalized(kinds: seq<string>, normalize: string -> string): (r: seq<string>)
    ensures |r| == |kinds| && forall k | 0 <= k < |kinds| :: r[k] == normalize(kinds[k])
  {
    if kinds == [] then [] else [normalize(kinds[0])] + Normalized(kinds[1..], normalize)
  }

  /** A stored contract: at least one kind, all supported, none twice. */
  ghost predicate ContractOk(required: seq<string>) {
    && required != [] && (forall kind | kind in required :: kind in ALLOWED_KINDS)
    && forall i, j | 0 <= i < j < |required| :: required[i] != required[j]
  }

  /** Accepts a contract exactly when it names at least one kind and only supported ones. */
  method NormalizeContract(kinds: seq<string>, normalize: string -> string)
    returns (r: Result<seq<string>, ContractError>)
    ensures r.Ok? <==> kinds != [] && forall k | 0 <= k < |kinds| :: normalize(kinds[k]) in ALLOWED_KINDS
    ensures r == Err(EmptyContract) <==> kinds == []
    ensures r.Ok? ==> ContractOk(r.value)
    ensures r.Ok? ==> forall kind :: kind in r.value <==> kind in Normalized(kinds, normalize)
  {
    var normalized := Normalized(kinds, normalize);
    var required := Deduplicated(normalized);
    DeduplicatedKeeps(normalized);
    assert kinds != [] ==> normalized[0] in required;
    var i := 0;
    while i < |required|
      invariant 0 <= i <= |required|
      invariant forall k | 0 <= k < i :: required[k] in ALLOWED_KINDS
    {
      if required[i] !in ALLOWED_KINDS {
        assert required[i] in normalized;
        return Err(UnsupportedKind);
      }
      i := i + 1;
    }
    forall k | 0 <= k < |kinds| ensures normalize(kinds[k]) in ALLOWED_KINDS {
      assert normalized[k] in required;
    }
    if |required| == 0 {
      return Err(EmptyContract);
    }
    assert required[0] in normalized;
    return Ok(required);
  }
}
