/** The line framing of the supervisor socket: carried text, delivered lines, and
    why the way the stream is cut into chunks does not matter. */
module LineFraming {
  import opened TextLines
  import opened Utf8

  const MAX_FRAME_BYTES: nat := 1048576

  function NonEmpty(lines: seq<Text>): seq<Text> {
    if lines == [] then []
    else (if lines[0] == [] then [] else [lines[0]]) + NonEmpty(lines[1..])
  }

  /** The non-empty complete lines of a text. */
  function Messages(t: Text): seq<Text> {
    NonEmpty(Split(t)[..|Split(t)| - 1])
  }

  /** What follows the last newline. */
  function Carry(t: Text): Text {
    Split(t)[|Split(t)| - 1]
  }

  lemma {:induction false} SplitAt(t: Text, k: nat)
    requires k < |t| && t[k] == NewLine && forall i | 0 <= i < k :: t[i] != NewLine
    ensures Split(t) == [t[..k]] + Split(t[k + 1..])
  {
    if k > 0 {
      SplitAt(t[1..], k - 1);
      assert t[1..][k..] == t[k + 1..];
      assert [t[0]] + t[1..][..k - 1] == t[..k];
      assert ([t[1..][..k - 1]] + Split(t[k + 1..]))[1..] == Split(t[k + 1..]);
    }
  }

  lemma {:induction false} SplitWithout(t: Text)
    requires NewLine !in t
    ensures Split(t) == [t]
  {
    if t != [] {
      SplitWithout(t[1..]);
      assert [t[0]] + t[1..] == t;
    }
  }

  lemma {:induction false} NonEmptyConcat(a: seq<Text>, b: seq<Text>)
    ensures NonEmpty(a + b) == NonEmpty(a) + NonEmpty(b)
  {
    if a == [] {
      assert a + b == b;
    } else {
      assert (a + b)[1..] == a[1..] + b;
      NonEmptyConcat(a[1..], b);
    }
  }

  function Complete(lines: seq<Text>): seq<Text>
    requires lines != []
  {
    lines[..|lines| - 1]
  }

  function Prepend(c: char, lines: seq<Text>): seq<Text>
    requires lines != []
  {
    [[c] + lines[0]] + lines[1..]
  }

  lemma {:induction false} FirstOfSplit(a: Text, b: Text)
    requires a != []
    ensures a[0] == NewLine ==> Split(a + b) == [[]] + Split(a[1..] + b)
    ensures a[0] != NewLine ==> Split(a + b) == Prepend(a[0], Split(a[1..] + b))
  {
    assert (a + b)[1..] == a[1..] + b;
  }

  /** The list `lines` continued by `more` in place of its last line. */
  function Continued(lines: seq<Text>, more: seq<Text>): seq<Text>
    requires lines != []
  {
    Complete(lines) + more
  }

  lemma {:induction false} ContinueAfterNewLine(lines: seq<Text>, more: seq<Text>)
    requires lines != []
    ensures Continued([[]] + lines, more) == [[]] + Continued(lines, more)
    ensures ([[]] + lines)[|lines|] == lines[|lines| - 1]
  {
  }

  lemma {:induction false} ContinueLater(c: char, lines: seq<Text>, more: seq<Text>)
    requires |lines| > 1 && more != []
    ensures Continued(Prepend(c, lines), more) == Prepend(c, Continued(lines, more))
    ensures Prepend(c, lines)[|lines| - 1] == lines[|lines| - 1]
  {
  }

  lemma {:induction false} ContinueOnlyLine(c: char, line: Text, b: Text)
    requires c != NewLine
    ensures Prepend(c, [line]) == [[c] + line]
    ensures Continued([[c] + line], Split([c] + line + b)) == Prepend(c, Continued([line], Split(line + b)))
  {
    FirstOfSplit([c] + line, b);
    assert ([c] + line)[1..] == line;
    assert Complete([[c] + line]) == [] && Complete([line]) == [];
    assert Continued([line], Split(line + b)) == Split(line + b);
  }

  /** Text that arrives later continues the unfinished last line. */
  lemma {:induction false} SplitConcat(a: Text, b: Text)
    ensures Split(a + b) == Continued(Split(a), Split(Carry(a) + b))
  {
    if a == [] {
      assert a + b == b && Carry(a) + b == b;
    } else {
      SplitConcat(a[1..], b);
      FirstOfSplit(a, b);
      var rest := Split(a[1..]);
      if a[0] == NewLine {
        ContinueAfterNewLine(rest, Split(Carry(a[1..]) + b));
      } else if |rest| == 1 {
        ContinueOnlyLine(a[0], rest[0], b);
      } else {
        ContinueLater(a[0], rest, Split(Carry(a[1..]) + b));
      }
    }
  }

  lemma {:induction false} MessagesConcat(a: Text, b: Text)
    ensures Messages(a + b) == Messages(a) + Messages(Carry(a) + b)
    ensures Carry(a + b) == Carry(Carry(a) + b)
  {
    SplitConcat(a, b);
    var front, back := Split(a)[..|Split(a)| - 1], Split(Carry(a) + b);
    assert (front + back)[..|front + back| - 1] == front + back[..|back| - 1];
    NonEmptyConcat(front, back[..|back| - 1]);
  }

  // ----- The parser -----

  datatype Parser = Parser(buffered: Text, destroyed: bool)

  /** One data event: too much carried text ends the connection; otherwise every complete
      line is delivered and the unfinished one carried. */
  function Received(p: Parser, chunk: Text): Parser {
    var whole := p.buffered + chunk;
    if p.destroyed then p
    else if Bytes(whole) > MAX_FRAME_BYTES then Parser(whole, true)
    else Parser(Carry(whole), false)
  }

  function DeliveredBy(p: Parser, chunk: Text): seq<Text> {
    if Received(p, chunk).destroyed then [] else Messages(p.buffered + chunk)
  }

  // ----- One data event, said without these functions -----

  /** The lines, each with its newline, one after the other. */
  ghost function Ended(lines: seq<Text>): Text {
    if lines == [] then [] else lines[0] + [NewLine] + Ended(lines[1..])
  }

  /** The text is these complete lines and an unfinished one. */
  ghost predicate Reads(text: Text, lines: seq<Text>, rest: Text) {
    text == Ended(lines) + rest && NewLine !in rest && forall k | 0 <= k < |lines| :: NewLine !in lines[k]
  }

  /** The messages are the lines that are not empty, in order. */
  ghost predicate Delivers(lines: seq<Text>, messages: seq<Text>) {
    if lines == [] then messages == []
    else if lines[0] == [] then Delivers(lines[1..], messages)
    else messages != [] && messages[0] == lines[0] && Delivers(lines[1..], messages[1..])
  }

  ghost predicate Receives(p: Parser, chunk: Text, p': Parser, messages: seq<Text>) {
    if p.destroyed then p' == p && messages == []
    else if Bytes(p.buffered + chunk) > 1048576 then p' == Parser(p.buffered + chunk, true) && messages == []
    else !p'.destroyed && exists lines :: Reads(p.buffered + chunk, lines, p'.buffered) && Delivers(lines, messages)
  }

  lemma {:induction false} SplitReads(t: Text)
    ensures Reads(t, Complete(Split(t)), Carry(t))
  {
    if t != [] {
      SplitReads(t[1..]);
      var c, rest := t[0], Split(t[1..]);
      assert t == [c] + t[1..];
      if c == NewLine {
        assert Complete([[]] + rest) == [[]] + Complete(rest);
        assert ([[]] + Complete(rest))[1..] == Complete(rest);
        assert [] + [NewLine] + Ended(Complete(rest)) + Carry(t) == [c] + (Ended(Complete(rest)) + Carry(t));
      } else if |rest| > 1 {
        EndedPrepend(c, Complete(rest));
        assert Complete(Prepend(c, rest)) == Prepend(c, Complete(rest));
        assert [c] + Ended(Complete(rest)) + Carry(t) == [c] + (Ended(Complete(rest)) + Carry(t));
      }
    }
  }

  lemma {:induction false} EndedPrepend(c: char, lines: seq<Text>)
    requires lines != []
    ensures Ended(Prepend(c, lines)) == [c] + Ended(lines)
  {
    assert Prepend(c, lines)[1..] == lines[1..];
    assert [c] + lines[0] + [NewLine] + Ended(lines[1..]) == [c] + (lines[0] + [NewLine] + Ended(lines[1..]));
  }

  lemma {:induction false} NonEmptyDelivers(lines: seq<Text>)
    ensures Delivers(lines, NonEmpty(lines))
  {
    if lines != [] {
      NonEmptyDelivers(lines[1..]);
      var rest := NonEmpty(lines[1..]);
      assert [] + rest == rest && ([lines[0]] + rest)[1..] == rest;
    }
  }

  lemma {:induction false} ReceivedMeans(p: Parser, chunk: Text)
    ensures Receives(p, chunk, Received(p, chunk), DeliveredBy(p, chunk))
  {
    var whole := p.buffered + chunk;
    SplitReads(whole);
    NonEmptyDelivers(Complete(Split(whole)));
  }

  method IndexOfNewline(t: Text) returns (k: int)
    ensures -1 <= k < |t|
    ensures k >= 0 ==> t[k] == NewLine && forall i | 0 <= i < k :: t[i] != NewLine
    ensures k < 0 ==> NewLine !in t
  {
    k := 0;
    while k < |t|
      invariant 0 <= k <= |t| && forall i | 0 <= i < k :: t[i] != NewLine
    {
      if t[k] == NewLine {
        return;
      }
      k := k + 1;
    }
    k := -1;
  }

  class LineParser {
    var buffered: Text
    var destroyed: bool

    function State(): Parser
      reads this
    {
      Parser(buffered, destroyed)
    }

    constructor ()
      ensures State() == Parser([], false)
    {
      buffered, destroyed := [], false;
    }

    method OnData(chunk: Text) returns (messages: seq<Text>)
      modifies this
      ensures State() == Received(old(State()), chunk)
      ensures messages == DeliveredBy(old(State()), chunk)
      ensures Receives(old(State()), chunk, State(), messages)
    {
      ReceivedMeans(State(), chunk);
      messages := [];
      if destroyed {
        return;
      }
      buffered := buffered + chunk;
      ghost var whole := buffered;
      if Bytes(buffered) > MAX_FRAME_BYTES {
        destroyed := true;
        return;
      }
      while true
        invariant !destroyed && Parsed(whole, messages, buffered)
        decreases |buffered|
      {
        var newline := IndexOfNewline(buffered);
        if newline < 0 {
          SplitWithout(buffered);
          break;
        }
        TakeLine(whole, messages, buffered, newline);
        var line := buffered[..newline];
        buffered := buffered[newline + 1..];
        if line != [] {
          messages := messages + [line];
        }
      }
    }
  }

  /** Some lines have been taken out of the text, and the rest is still there. */
  ghost predicate Parsed(whole: Text, messages: seq<Text>, rest: Text) {
    messages + Messages(rest) == Messages(whole) && Carry(rest) == Carry(whole)
  }

  lemma {:induction false} TakeLine(whole: Text, messages: seq<Text>, rest: Text, k: nat)
    requires Parsed(whole, messages, rest)
    requires k < |rest| && rest[k] == NewLine && forall i | 0 <= i < k :: rest[i] != NewLine
    ensures Parsed(whole, if rest[..k] == [] then messages else messages + [rest[..k]], rest[k + 1..])
  {
    OneLine(rest, k);
    if k > 0 {
      assert messages + ([rest[..k]] + Messages(rest[k + 1..])) == messages + [rest[..k]] + Messages(rest[k + 1..]);
    }
  }

  lemma {:induction false} OneLine(t: Text, k: nat)
    requires k < |t| && t[k] == NewLine && forall i | 0 <= i < k :: t[i] != NewLine
    ensures Messages(t) == (if k == 0 then [] else [t[..k]]) + Messages(t[k + 1..])
    ensures Carry(t) == Carry(t[k + 1..])
  {
    SplitAt(t, k);
    var rest := Split(t[k + 1..]);
    assert ([t[..k]] + rest)[..|rest|] == [t[..k]] + rest[..|rest| - 1];
    assert ([t[..k]] + rest[..|rest| - 1])[1..] == rest[..|rest| - 1];
  }

  // ----- Whole streams -----

  function ReceivedAll(p: Parser, chunks: seq<Text>): Parser
    decreases |chunks|
  {
    if chunks == [] then p else ReceivedAll(Received(p, chunks[0]), chunks[1..])
  }

  function DeliveredByAll(p: Parser, chunks: seq<Text>): seq<Text>
    decreases |chunks|
  {
    if chunks == [] then [] else DeliveredBy(p, chunks[0]) + DeliveredByAll(Received(p, chunks[0]), chunks[1..])
  }

  lemma {:induction false} DestroyedForGood(p: Parser, chunks: seq<Text>)
    requires p.destroyed
    ensures ReceivedAll(p, chunks) == p && DeliveredByAll(p, chunks) == []
    decreases |chunks|
  {
    if chunks != [] {
      DestroyedForGood(p, chunks[1..]);
    }
  }

  lemma {:induction false} CarryIsUnfinished(t: Text)
    ensures NewLine !in Carry(t)
  {
    if t != [] {
      CarryIsUnfinished(t[1..]);
    }
  }

  /** Whatever the chunks, the messages delivered are the first non-empty complete lines of
      the stream, in order; and all of them as long as the connection stands. */
  lemma {:induction false} ChunkingDoesNotMatter(p: Parser, chunks: seq<Text>)
    requires !p.destroyed && NewLine !in p.buffered
    ensures DeliveredByAll(p, chunks) <= Messages(p.buffered + Concat(chunks))
    ensures !ReceivedAll(p, chunks).destroyed ==>
      && DeliveredByAll(p, chunks) == Messages(p.buffered + Concat(chunks))
      && ReceivedAll(p, chunks).buffered == Carry(p.buffered + Concat(chunks))
    decreases |chunks|
  {
    if chunks == [] {
      assert p.buffered + Concat(chunks) == p.buffered;
      SplitWithout(p.buffered);
    } else {
      var whole := p.buffered + chunks[0];
      var after := Received(p, chunks[0]);
      if after.destroyed {
        DestroyedForGood(after, chunks[1..]);
      } else {
        CarryIsUnfinished(whole);
        ChunkingDoesNotMatter(after, chunks[1..]);
        WholeThenRest(p.buffered, chunks);
      }
    }
  }

  lemma {:induction false} WholeThenRest(start: Text, chunks: seq<Text>)
    requires chunks != []
    ensures
      var whole, rest := start + chunks[0], Concat(chunks[1..]);
      && Messages(start + Concat(chunks)) == Messages(whole) + Messages(Carry(whole) + rest)
      && Carry(start + Concat(chunks)) == Carry(Carry(whole) + rest)
  {
    var whole, rest := start + chunks[0], Concat(chunks[1..]);
    assert start + Concat(chunks) == whole + rest;
    MessagesConcat(whole, rest);
  }

  /** The unfinished line before chunk `i` and that chunk exceed the frame limit. */
  ghost predicate Overflow(start: Text, chunks: seq<Text>, i: nat)
    requires i < |chunks|
  {
    Bytes(Carry(start + Concat(chunks[..i])) + chunks[i]) > MAX_FRAME_BYTES
  }

  lemma {:induction false} OverflowShifts(start: Text, chunks: seq<Text>, i: nat)
    requires 0 < i < |chunks|
    ensures Overflow(start, chunks, i) <==> Overflow(Carry(start + chunks[0]), chunks[1..], i - 1)
  {
    var middle := Concat(chunks[1..][..i - 1]);
    assert chunks[..i] == [chunks[0]] + chunks[1..][..i - 1];
    assert chunks[..i][1..] == chunks[1..][..i - 1];
    assert start + Concat(chunks[..i]) == (start + chunks[0]) + middle;
    MessagesConcat(start + chunks[0], middle);
  }

  /** The connection is destroyed exactly when some chunk, joined to the unfinished line
      it continues, exceeds the frame limit, even if that text contains complete lines. */
  lemma {:induction false} DestroyedExactlyOnOverflow(p: Parser, chunks: seq<Text>)
    requires !p.destroyed && NewLine !in p.buffered
    ensures ReceivedAll(p, chunks).destroyed <==> exists i | 0 <= i < |chunks| :: Overflow(p.buffered, chunks, i)
    decreases |chunks|
  {
    if chunks != [] {
      var after := Received(p, chunks[0]);
      SplitWithout(p.buffered);
      assert p.buffered + Concat(chunks[..0]) == p.buffered;
      assert Overflow(p.buffered, chunks, 0) <==> after.destroyed;
      if after.destroyed {
        DestroyedForGood(after, chunks[1..]);
      } else {
        CarryIsUnfinished(p.buffered + chunks[0]);
        DestroyedExactlyOnOverflow(after, chunks[1..]);
        forall i: nat | 0 < i < |chunks|
          ensures Overflow(p.buffered, chunks, i) <==> Overflow(after.buffered, chunks[1..], i - 1)
        {
          OverflowShifts(p.buffered, chunks, i);
        }
        OverflowFromShifted(p.buffered, after.buffered, chunks);
      }
    }
  }

  lemma {:induction false} OverflowFromShifted(start: Text, after: Text, chunks: seq<Text>)
    requires chunks != [] && !Overflow(start, chunks, 0)
    requires forall i: nat | 0 < i < |chunks| :: Overflow(start, chunks, i) <==> Overflow(after, chunks[1..], i - 1)
    ensures (exists i | 0 <= i < |chunks| :: Overflow(start, chunks, i)) <==>
            (exists i | 0 <= i < |chunks[1..]| :: Overflow(after, chunks[1..], i))
  {
    if i: nat :| i < |chunks[1..]| && Overflow(after, chunks[1..], i) {
      assert Overflow(start, chunks, i + 1);
    }
  }

  // ----- Writing -----

  /** Each message followed by a newline, as the writers send them. */
  function Wire(messages: seq<Text>): Text {
    if messages == [] then [] else messages[0] + [NewLine] + Wire(messages[1..])
  }

  predicate IsMessage(m: Text) {
    m != [] && NewLine !in m
  }

  lemma {:induction false} MessagesOfWire(messages: seq<Text>)
    requires forall i | 0 <= i < |messages| :: IsMessage(messages[i])
    ensures Messages(Wire(messages)) == messages && Carry(Wire(messages)) == []
  {
    if messages != [] {
      var t := Wire(messages);
      var k := |messages[0]|;
      assert IsMessage(messages[0]);
      assert t[..k] == messages[0] && t[k + 1..] == Wire(messages[1..]);
      assert forall i | 0 <= i < k :: t[i] == messages[0][i];
      OneLine(t, k);
      MessagesOfWire(messages[1..]);
    }
  }

  /** Writing newline-free messages and parsing them, in any chunks, is the identity. */
  lemma {:induction false} WriteThenParse(messages: seq<Text>, chunks: seq<Text>)
    requires forall i | 0 <= i < |messages| :: IsMessage(messages[i])
    requires Concat(chunks) == Wire(messages)
    requires !ReceivedAll(Parser([], false), chunks).destroyed
    ensures DeliveredByAll(Parser([], false), chunks) == messages
    ensures ReceivedAll(Parser([], false), chunks) == Parser([], false)
  {
    ChunkingDoesNotMatter(Parser([], false), chunks);
    assert [] + Concat(chunks) == Wire(messages);
    MessagesOfWire(messages);
  }

  // ----- Lines that fit, in chunks that do not let them -----

  /** Each message in a chunk of its own. */
  function LineByLine(messages: seq<Text>): seq<Text> {
    if messages == [] then [] else [messages[0] + [NewLine]] + LineByLine(messages[1..])
  }

  lemma {:induction false} SameBytes(messages: seq<Text>)
    ensures Concat(LineByLine(messages)) == Wire(messages)
  {
    if messages != [] {
      SameBytes(messages[1..]);
      assert LineByLine(messages)[1..] == LineByLine(messages[1..]);
    }
  }

  lemma {:induction false} OneLineReceived(m: Text)
    requires IsMessage(m) && Bytes(m + [NewLine]) <= MAX_FRAME_BYTES
    ensures Received(Parser([], false), m + [NewLine]) == Parser([], false)
    ensures DeliveredBy(Parser([], false), m + [NewLine]) == [m]
  {
    assert [m][1..] == [];
    assert Wire([m]) == m + [NewLine];
    assert [] + (m + [NewLine]) == m + [NewLine];
    MessagesOfWire([m]);
  }

  /** Lines that each fit a frame are all delivered when they arrive one by one. */
  lemma {:induction false} LineByLineStands(messages: seq<Text>)
    requires forall i | 0 <= i < |messages| ::
      IsMessage(messages[i]) && Bytes(messages[i] + [NewLine]) <= MAX_FRAME_BYTES
    ensures ReceivedAll(Parser([], false), LineByLine(messages)) == Parser([], false)
    ensures DeliveredByAll(Parser([], false), LineByLine(messages)) == messages
  {
    if messages != [] {
      OneLineReceived(messages[0]);
      LineByLineStands(messages[1..]);
      assert LineByLine(messages)[1..] == LineByLine(messages[1..]);
      assert [messages[0]] + messages[1..] == messages;
    }
  }

  lemma {:induction false} ReceivedInTurn(p: Parser, a: seq<Text>, b: seq<Text>)
    ensures ReceivedAll(p, a + b) == ReceivedAll(ReceivedAll(p, a), b)
    ensures DeliveredByAll(p, a + b) == DeliveredByAll(p, a) + DeliveredByAll(ReceivedAll(p, a), b)
    decreases |a|
  {
    if a == [] {
      assert a + b == b;
    } else {
      assert (a + b)[1..] == a[1..] + b && (a + b)[0] == a[0];
      var q, front := Received(p, a[0]), DeliveredBy(p, a[0]);
      ReceivedInTurn(q, a[1..], b);
      var middle, back := DeliveredByAll(q, a[1..]), DeliveredByAll(ReceivedAll(q, a[1..]), b);
      assert front + (middle + back) == (front + middle) + back;
    }
  }

  /** Pieces of one line that fits a frame are carried. */
  lemma {:induction false} LineCarried(start: Text, pieces: seq<Text>)
    requires NewLine !in start && NewLine !in Concat(pieces) && Bytes(start + Concat(pieces)) <= MAX_FRAME_BYTES
    ensures ReceivedAll(Parser(start, false), pieces) == Parser(start + Concat(pieces), false)
    ensures DeliveredByAll(Parser(start, false), pieces) == []
    decreases |pieces|
  {
    if pieces == [] {
      assert start + [] == start;
    } else {
      var whole := start + pieces[0];
      assert start + Concat(pieces) == whole + Concat(pieces[1..]);
      assert forall c | c in pieces[0] || c in Concat(pieces[1..]) :: c in Concat(pieces);
      BytesConcat(whole, Concat(pieces[1..]));
      SplitWithout(whole);
      LineCarried(whole, pieces[1..]);
    }
  }

  /** The end of a carried line and a whole further one, in one chunk. */
  function EndAndNext(next: Text): Text {
    [NewLine] + next + [NewLine]
  }

  lemma {:induction false} EndAndNextFalls(line: Text, next: Text)
    requires Bytes(line) + Bytes(next) + 2 > MAX_FRAME_BYTES
    ensures ReceivedAll(Parser(line, false), [EndAndNext(next)]).destroyed
    ensures DeliveredByAll(Parser(line, false), [EndAndNext(next)]) == []
  {
    BytesConcat(line, EndAndNext(next));
    BytesConcat([NewLine] + next, [NewLine]);
    BytesConcat([NewLine], next);
    assert [EndAndNext(next)][1..] == [];
  }

  lemma {:induction false} EndThenNextStands(line: Text, next: Text)
    requires IsMessage(line) && IsMessage(next)
    requires Bytes(line) < MAX_FRAME_BYTES && Bytes(next) < MAX_FRAME_BYTES
    ensures ReceivedAll(Parser(line, false), [[NewLine], next + [NewLine]]) == Parser([], false)
    ensures DeliveredByAll(Parser(line, false), [[NewLine], next + [NewLine]]) == [line, next]
  {
    LineEnds(line);
    BytesConcat(next, [NewLine]);
    OneLineReceived(next);
    TwoChunks(Parser(line, false), [NewLine], next + [NewLine]);
  }

  lemma {:induction false} LineEnds(line: Text)
    requires IsMessage(line) && Bytes(line) < MAX_FRAME_BYTES
    ensures Received(Parser(line, false), [NewLine]) == Parser([], false)
    ensures DeliveredBy(Parser(line, false), [NewLine]) == [line]
  {
    BytesConcat(line, [NewLine]);
    assert [line][1..] == [] && Wire([line]) == line + [NewLine];
    MessagesOfWire([line]);
  }

  lemma {:induction false} TwoChunks(p: Parser, a: Text, b: Text)
    ensures ReceivedAll(p, [a, b]) == Received(Received(p, a), b)
    ensures DeliveredByAll(p, [a, b]) == DeliveredBy(p, a) + DeliveredBy(Received(p, a), b)
  {
    var q, rest := Received(p, a), [a, b][1..];
    assert rest == [b] && rest[1..] == [];
    assert ReceivedAll(q, rest) == ReceivedAll(Received(q, b), rest[1..]);
    assert DeliveredByAll(q, rest) == DeliveredBy(q, b) + DeliveredByAll(Received(q, b), rest[1..]);
  }

  /** Two lines that each fit a frame, the first carried from earlier chunks: delivered when its newline
      comes alone, and lost with the connection when the newline and a second line that brings the
      sum over the limit come in one chunk, however small that chunk is. */
  lemma {:induction false} NextLineOverflows(line: Text, pieces: seq<Text>, next: Text)
    requires IsMessage(line) && IsMessage(next) && Concat(pieces) == line
    requires Bytes(line) < MAX_FRAME_BYTES && Bytes(next) < MAX_FRAME_BYTES
    requires Bytes(line) + Bytes(next) + 2 > MAX_FRAME_BYTES
    ensures
      var start := Parser([], false);
      && DeliveredByAll(start, pieces + [[NewLine], next + [NewLine]]) == [line, next]
      && !ReceivedAll(start, pieces + [[NewLine], next + [NewLine]]).destroyed
      && DeliveredByAll(start, pieces + [EndAndNext(next)]) == []
      && ReceivedAll(start, pieces + [EndAndNext(next)]).destroyed
  {
    var start := Parser([], false);
    assert [] + Concat(pieces) == line;
    LineCarried([], pieces);
    ReceivedInTurn(start, pieces, [[NewLine], next + [NewLine]]);
    ReceivedInTurn(start, pieces, [EndAndNext(next)]);
    EndThenNextStands(line, next);
    EndAndNextFalls(line, next);
  }

  function Copies(m: Text, n: nat): (messages: seq<Text>)
    ensures |messages| == n && forall i | 0 <= i < n :: messages[i] == m
  {
    if n == 0 then [] else [m] + Copies(m, n - 1)
  }

  lemma {:induction false} BytesOfCopies(m: Text, n: nat)
    ensures Bytes(Concat(Copies(m, n))) == n * Bytes(m)
    ensures forall c | c in Concat(Copies(m, n)) :: c in m
  {
    if n > 0 {
      assert Copies(m, n)[1..] == Copies(m, n - 1);
      BytesConcat(m, Concat(Copies(m, n - 1)));
      BytesOfCopies(m, n - 1);
      calc {
        Bytes(m) + (n - 1) * Bytes(m);
        n * Bytes(m);
      }
    }
  }

  lemma {:induction false} BytesOfRun(n: nat) returns (piece: Text)
    ensures Bytes(piece) == |piece| == n && NewLine !in piece
  {
    piece := [];
    while |piece| < n
      invariant Bytes(piece) == |piece| <= n && NewLine !in piece
    {
      BytesConcat(piece, ['a']);
      piece := piece + ['a'];
    }
  }

  /** In chunks no larger than a socket delivers: a line one byte short of the limit, its newline
      and a line of one character. The last chunk of three bytes ends the connection. */
  lemma {:induction false} SmallChunkCanOverflow() returns (line: Text, pieces: seq<Text>, next: Text)
    ensures Concat(pieces) == line && Bytes(line) + 1 == MAX_FRAME_BYTES && Bytes(EndAndNext(next)) == 3
    ensures forall k | 0 <= k < |pieces| :: Bytes(pieces[k]) <= 1023
    ensures
      var start := Parser([], false);
      && DeliveredByAll(start, pieces + [[NewLine], next + [NewLine]]) == [line, next]
      && DeliveredByAll(start, pieces + [EndAndNext(next)]) == []
      && ReceivedAll(start, pieces + [EndAndNext(next)]).destroyed
  {
    var piece := BytesOfRun(1023);
    next := BytesOfRun(1);
    pieces := Copies(piece, 1025);
    line := Concat(pieces);
    BytesOfCopies(piece, 1025);
    BytesConcat([NewLine] + next, [NewLine]);
    BytesConcat([NewLine], next);
    NextLineOverflows(line, pieces, next);
  }
}
