/** Text cut at newlines, and its last lines. */
module TextLines {
  import opened Utf8

  const NewLine := '\n'

  function Concat(parts: seq<Text>): Text {
    if parts == [] then [] else parts[0] + Concat(parts[1..])
  }

  lemma {:induction false} ConcatAppend(parts: seq<Text>, part: Text)
    ensures Concat(parts + [part]) == Concat(parts) + part
  {
    if parts == [] {
      assert parts + [part] == [part];
    } else {
      assert (parts + [part])[1..] == parts[1..] + [part];
      ConcatAppend(parts[1..], part);
    }
  }

  // ----- Cutting to the last lines, as written -----

  /** The pieces between newlines: one more than there are newlines. */
  function Split(t: Text): (r: seq<Text>)
    ensures r != []
  {
    if t == [] then [[]]
    else if t[0] == NewLine then [[]] + Split(t[1..])
    else
      var rest := Split(t[1..]);
      [[t[0]] + rest[0]] + rest[1..]
  }

  function Join(parts: seq<Text>): Text
    requires parts != []
  {
    if |parts| == 1 then parts[0] else parts[0] + [NewLine] + Join(parts[1..])
  }

  predicate EndsLine(t: Text) {
    t != [] && t[|t| - 1] == NewLine
  }

  function Ending(ended: bool): Text {
    if ended then [NewLine] else []
  }

  function Body(t: Text): Text {
    if EndsLine(t) then t[..|t| - 1] else t
  }

  datatype Tailed = Tailed(text: Text, dropped: nat)

  function Tail(t: Text, keep: nat): Tailed
    requires keep >= 1
  {
    if t == [] then Tailed([], 0)
    else
      var lines := Split(Body(t));
      if |lines| <= keep then Tailed(t, 0)
      else Tailed(Join(lines[|lines| - keep..]) + Ending(EndsLine(t)), |lines| - keep)
  }

  // ----- What the last lines of a text are -----

  /** A text cut after each newline. */
  function Lines(t: Text): (r: seq<Text>)
    ensures t != [] ==> r != []
  {
    if t == [] then []
    else if t[0] == NewLine then [[NewLine]] + Lines(t[1..])
    else if |t| == 1 then [t]
    else
      var rest := Lines(t[1..]);
      [[t[0]] + rest[0]] + rest[1..]
  }

  /** A line ends at its only newline; the last one may lack it. */
  ghost predicate IsLine(line: Text, last: bool) {
    && line != [] && (forall k | 0 <= k < |line| - 1 :: line[k] != NewLine)
    && (EndsLine(line) || last)
  }

  /** Lines are the text itself, cut exactly at its newlines. */
  lemma {:induction false} LinesCutAtNewlines(t: Text)
    ensures Concat(Lines(t)) == t
    ensures forall i | 0 <= i < |Lines(t)| :: IsLine(Lines(t)[i], i == |Lines(t)| - 1)
  {
    if t == [] {
    } else if |t| == 1 {
      ConcatAppend([], t);
      assert t == [t[0]] && Lines(t[1..]) == [];
    } else {
      LinesCutAtNewlines(t[1..]);
      var rest := Lines(t[1..]);
      if t[0] != NewLine {
        FirstLineGrows(rest, t[0]);
      }
    }
  }

  lemma {:induction false} FirstLineGrows(rest: seq<Text>, c: char)
    requires rest != [] && c != NewLine && IsLine(rest[0], |rest| == 1)
    ensures IsLine([c] + rest[0], |rest| == 1)
    ensures Concat([[c] + rest[0]] + rest[1..]) == [c] + Concat(rest)
  {
  }

  function LastLines(t: Text, keep: nat): Text {
    var lines := Lines(t);
    if |lines| <= keep then t else Concat(lines[|lines| - keep..])
  }

  function DroppedLines(t: Text, keep: nat): nat {
    if |Lines(t)| <= keep then 0 else |Lines(t)| - keep
  }

  // ----- The two agree -----

  /** The pieces with their newlines put back. */
  function Terminated(parts: seq<Text>, ended: bool): (r: seq<Text>)
    requires parts != []
    ensures |r| == |parts|
  {
    if |parts| == 1 then [parts[0] + Ending(ended)]
    else [parts[0] + [NewLine]] + Terminated(parts[1..], ended)
  }

  lemma {:induction false} LinesOfSplit(body: Text, ended: bool)
    requires ended || (body != [] && !EndsLine(body))
    ensures Lines(body + Ending(ended)) == Terminated(Split(body), ended)
  {
    var t := body + Ending(ended);
    if body == [] {
      assert t == [NewLine] && Lines(t[1..]) == [];
    } else if |t| > 1 {
      assert t[1..] == body[1..] + Ending(ended);
      LinesOfSplit(body[1..], ended);
      var parts := Split(body[1..]);
      if body[0] == NewLine {
        var empty: Text := [];
        assert ([empty] + parts)[1..] == parts && empty + [NewLine] == [NewLine];
      } else {
        var grown := [[body[0]] + parts[0]] + parts[1..];
        assert grown[1..] == parts[1..];
        var ending := if |parts| == 1 then Ending(ended) else [NewLine];
        assert [body[0]] + (parts[0] + ending) == [body[0]] + parts[0] + ending;
      }
    } else {
      assert body[1..] == [] && Split(body[1..]) == [[]];
      assert body == [body[0]] + [];
      assert t == body && body + Ending(false) == body;
    }
  }

  lemma {:induction false} TerminatedFrom(parts: seq<Text>, ended: bool, d: nat)
    requires d < |parts|
    ensures Terminated(parts, ended)[d..] == Terminated(parts[d..], ended)
  {
    if d > 0 {
      TerminatedFrom(parts[1..], ended, d - 1);
      assert parts[1..][d - 1..] == parts[d..];
    } else {
      assert parts[0..] == parts;
    }
  }

  lemma {:induction false} ConcatTerminated(parts: seq<Text>, ended: bool)
    requires parts != []
    ensures Concat(Terminated(parts, ended)) == Join(parts) + Ending(ended)
  {
    if |parts| == 1 {
      ConcatAppend([], parts[0] + Ending(ended));
    } else {
      ConcatTerminated(parts[1..], ended);
      assert Terminated(parts, ended)[1..] == Terminated(parts[1..], ended);
    }
  }

  lemma {:induction false} JoinFrom(parts: seq<Text>, ended: bool, d: nat)
    requires d < |parts|
    ensures Concat(Terminated(parts, ended)[d..]) == Join(parts[d..]) + Ending(ended)
  {
    TerminatedFrom(parts, ended, d);
    ConcatTerminated(parts[d..], ended);
  }

  lemma {:induction false} JoinOfLast(body: Text, ended: bool, keep: nat)
    requires ended || (body != [] && !EndsLine(body))
    requires 1 <= keep < |Split(body)|
    ensures
      var t, lines := body + Ending(ended), Split(body);
      |Lines(t)| == |lines| && LastLines(t, keep) == Join(lines[|lines| - keep..]) + Ending(ended)
  {
    LinesOfSplit(body, ended);
    JoinFrom(Split(body), ended, |Split(body)| - keep);
  }

  /** The cut as written keeps exactly the last `keep` lines and counts the others. */
  lemma {:induction false} TailIsLastLines(t: Text, keep: nat)
    requires keep >= 1
    ensures Tail(t, keep) == Tailed(LastLines(t, keep), DroppedLines(t, keep))
  {
    if t != [] {
      BodyAndEnding(t);
      if |Split(Body(t))| > keep {
        JoinOfLast(Body(t), EndsLine(t), keep);
      } else {
        LinesOfSplit(Body(t), EndsLine(t));
      }
    }
  }

  lemma {:induction false} BodyAndEnding(t: Text)
    requires t != []
    ensures t == Body(t) + Ending(EndsLine(t))
    ensures EndsLine(t) || (Body(t) != [] && !EndsLine(Body(t)))
  {
  }
}
