/** Shared value types and a first-match search. */
module Base {
  datatype Option<+T> = None | Some(value: T)

  datatype Result<+T, +E> = Ok(value: T) | Err(error: E)

  /** The index of the first element satisfying `p`, or the length if there is none. */
  function FirstWhere<T>(s: seq<T>, p: T -> bool): (k: nat)
    ensures k <= |s|
    ensures forall j | 0 <= j < k :: !p(s[j])
    ensures k < |s| ==> p(s[k])
  {
    if s == [] || p(s[0]) then 0 else 1 + FirstWhere(s[1..], p)
  }

  /** Whitespace as ECMAScript's `trim` removes it: WhiteSpace and LineTerminator
      of ECMA-262, section 12. */
  predicate IsSpace(c: char) {
    var code := c as int;
    || 9 <= code <= 13 || code == 0x20 || code == 0xA0 || code == 0x1680 || 0x2000 <= code <= 0x200A
    || code == 0x2028 || code == 0x2029 || code == 0x202F || code == 0x205F || code == 0x3000 || code == 0xFEFF
  }

  /** Nothing is left of the text after `trim`. */
  predicate Blank(text: string) {
    forall k | 0 <= k < |text| :: IsSpace(text[k])
  }

  /** An optional string that is present and not empty. */
  predicate Truthy(text: Option<string>) {
    text.Some? && text.value != ""
  }

  function TrimStart(text: string): string {
    if text != "" && IsSpace(text[0]) then TrimStart(text[1..]) else text
  }

  function TrimEnd(text: string): string {
    if text != "" && IsSpace(text[|text| - 1]) then TrimEnd(text[..|text| - 1]) else text
  }

  function Trim(text: string): string {
    TrimEnd(TrimStart(text))
  }

  lemma {:induction false} TrimOfBlank(text: string)
    ensures Blank(text) <==> Trim(text) == ""
  {
    if text != "" && IsSpace(text[0]) {
      TrimOfBlank(text[1..]);
      assert forall k | 1 <= k < |text| :: text[k] == text[1..][k - 1];
      assert forall k | 0 <= k < |text| - 1 :: text[1..][k] == text[k + 1];
    } else if text != "" {
      TrimEndKeeps(text);
    }
  }

  lemma {:induction false} TrimEndKeeps(text: string)
    requires text != "" && !IsSpace(text[0])
    ensures TrimEnd(text) != "" && TrimEnd(text)[0] == text[0]
  {
    if |text| > 1 && IsSpace(text[|text| - 1]) {
      TrimEndKeeps(text[..|text| - 1]);
    }
  }

  /** Upper case as ECMAScript's `toUpperCase` gives it, for every character whose upper case is
      spelled with the letters A to Z (the last eight by the SpecialCasing of Unicode). */
  function UpperOf(c: char): string {
    if 'a' <= c <= 'z' then [(c as int - 32) as char]
    else if c == '\U{131}' then "I"
    else if c == '\U{17F}' then "S"
    else if c == '\U{DF}' then "SS"
    else if c == '\U{FB00}' then "FF"
    else if c == '\U{FB01}' then "FI"
    else if c == '\U{FB02}' then "FL"
    else if c == '\U{FB03}' then "FFI"
    else if c == '\U{FB04}' then "FFL"
    else if c == '\U{FB05}' || c == '\U{FB06}' then "ST"
    else [c]
  }

  function Upper(text: string): string {
    if text == "" then "" else UpperOf(text[0]) + Upper(text[1..])
  }

  /** First occurrences only, as building a set in insertion order keeps them. */
  function Deduplicated(kinds: seq<string>): seq<string> {
    if kinds == [] then []
    else
      var front := Deduplicated(kinds[..|kinds| - 1]);
      var last := kinds[|kinds| - 1];
      if last in front then front else front + [last]
  }

  lemma {:induction false} DeduplicatedKeeps(kinds: seq<string>)
    ensures forall kind :: kind in Deduplicated(kinds) <==> kind in kinds
    ensures forall i, j | 0 <= i < j < |Deduplicated(kinds)| :: Deduplicated(kinds)[i] != Deduplicated(kinds)[j]
  {
    if kinds != [] {
      var front, last := kinds[..|kinds| - 1], kinds[|kinds| - 1];
      DeduplicatedKeeps(front);
      assert kinds == front + [last];
      if last !in Deduplicated(front) {
        assert Deduplicated(kinds) == Deduplicated(front) + [last];
      }
    }
  }

  lemma {:induction false} SubsetSmaller<T>(a: set<T>, b: set<T>)
    requires a <= b
    ensures |a| <= |b|
  {
    if a != {} {
      var x :| x in a;
      SubsetSmaller(a - {x}, b - {x});
    }
  }
}
