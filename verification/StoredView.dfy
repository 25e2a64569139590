/** Output read back from the store: what a view of it flags, and the one flag that giving a
    run up forgets. */
module StoredView {
  import opened Base
  import opened OutputStream
  import opened PersistedOutput
  import opened TextLines
  import opened Utf8
  import V = TextView

  /** The redacted output is longer than what may be stored. */
  ghost predicate TooLong(chunks: seq<Chunk>, max: nat, redact: Text -> Text) {
    ChunkBytes(Redacted(chunks, redact)) > max
  }

  predicate TailRead(maxBytes: int, maxChunks: int, tailLines: int) {
    PageLimits(maxBytes, maxChunks) && 1 <= tailLines <= V.MAX_TAIL_LINES
  }

  /** A run stored by one runtime and viewed by another, or after a restart: the tail from the
      start is flagged exactly when the run had dropped output or what it had was too long to
      store; otherwise it shows the end of everything, redacted. */
  method ViewStored(out: RunOutput, max: nat, redact: Text -> Text, limit: nat, maxBytes: int, maxChunks: int,
                    tailLines: int)
    returns (view: V.View)
    requires out.Readable() && TailRead(maxBytes, maxChunks, tailLines)
    modifies out`persistedTruncated
    ensures V.Flagged(view) <==> out.floor > 0 || TooLong(out.output, max, redact)
    ensures view.persistedTruncated <==> V.Flagged(view)
    ensures !V.Flagged(view) ==>
      && view.stdout == LastLines(Joined(Redacted(out.output, redact), Stdout), tailLines)
      && view.stderr == LastLines(Joined(Redacted(out.output, redact), Stderr), tailLines)
  {
    var stored, _ := Store(out, max, redact);
    var found := Restore(stored, out.totalBytes, limit);
    var read := V.TextView(found, 0, maxBytes, maxChunks, Some(tailLines));
    view := read.value;
  }

  /** Marks a run found in the store as interrupted, which stores it again. */
  method Interrupt(found: RunOutput, max: nat, redact: Text -> Text)
    requires found.Readable()
    modifies found`persistedTruncated
    ensures found.Readable()
    ensures found.persistedTruncated <==> found.floor > 0 || TooLong(found.output, max, redact)
  {
    var stored, _ := Store(found, max, redact);
  }

  /** Stored by its runtime, found by another one, and stored again as interrupted. */
  method GiveUp(out: RunOutput, max: nat, redact: Text -> Text, again: Text -> Text, limit: nat)
    returns (stored: Persisted, found: RunOutput, ghost d: nat)
    requires out.Readable()
    modifies out`persistedTruncated
    ensures stored.truncated <==> out.floor > 0 || TooLong(out.output, max, redact)
    ensures LongestFit(Redacted(out.output, redact), d, max)
    ensures stored.output == Kept(Redacted(out.output, redact), d, max)
    ensures stored.floor + |stored.output| == out.next
    ensures fresh(found) && found.Readable() && found.floor == stored.floor
    ensures found.output == stored.output
    ensures found.persistedTruncated <==> stored.floor > 0 || TooLong(stored.output, max, again)
  {
    stored, d := Store(out, max, redact);
    found := Restore(stored, out.totalBytes, limit);
    Interrupt(found, max, again);
  }

  /** A run whose runtime is gone: whoever reads it marks it interrupted and stores it again, from
      what it found, redacted anew. The flag for what the store has cut is then set anew: it stays exactly when
      whole chunks are missing, or what was found is too long once more. */
  method ViewGivenUp(out: RunOutput, max: nat, redact: Text -> Text, again: Text -> Text, limit: nat,
                     maxBytes: int, maxChunks: int, tailLines: int)
    returns (stored: Persisted, view: V.View, ghost d: nat)
    requires out.Readable() && TailRead(maxBytes, maxChunks, tailLines)
    modifies out`persistedTruncated
    ensures stored.truncated <==> out.floor > 0 || TooLong(out.output, max, redact)
    ensures LongestFit(Redacted(out.output, redact), d, max)
    ensures stored.output == Kept(Redacted(out.output, redact), d, max)
    ensures stored.floor + |stored.output| == out.next
    ensures V.Flagged(view) <==> stored.floor > 0 || TooLong(stored.output, max, again)
    ensures view.stdout == LastLines(Joined(stored.output, Stdout), tailLines)
  {
    var found;
    stored, found, d := GiveUp(out, max, redact, again, limit);
    var read := V.TextView(found, 0, maxBytes, maxChunks, Some(tailLines));
    view := read.value;
  }

  /** Every character is one byte. */
  ghost predicate Ascii(text: Text) {
    forall k | 0 <= k < |text| :: text[k] as int < 0x80
  }

  lemma {:induction false} AsciiCut(text: Text, k: nat)
    requires Ascii(text) && k <= Bytes(text)
    ensures Bytes(text) == |text| && CutAt(text, k) == Cut(0, k)
  {
    if text != [] {
      BytesOfTail(text);
      if k > 0 {
        AsciiCut(text[1..], k - 1);
      } else {
        AsciiCut(text[1..], 0);
      }
    }
  }

  lemma {:induction false} BytesOfTail(text: Text)
    requires text != [] && Ascii(text)
    ensures Size(text[0]) == 1 && Bytes(text) == 1 + Bytes(text[1..]) && Ascii(text[1..])
  {
  }

  lemma {:induction false} AsciiTail(text: Text, max: nat)
    requires Ascii(text) && max < |text|
    ensures TailBytes(text, max) == text[|text| - max..] && Bytes(text) == |text|
    ensures Bytes(text[|text| - max..]) == max
  {
    AsciiCut(text, 0);
    AsciiCut(text, |text| - max);
    AsciiCut(text[|text| - max..], 0);
    assert Replacements(0) + text[|text| - max..] == text[|text| - max..];
  }

  /** What is stored of one chunk of single bytes is its end. */
  lemma {:induction false} OneChunkCut(chunk: Chunk, d: nat, kept: seq<Chunk>, max: nat)
    requires LongestFit([chunk], d, max) && kept == Kept([chunk], d, max) && Ascii(chunk.text) && 0 < max < |chunk.text|
    ensures kept == [chunk.(text := chunk.text[|chunk.text| - max..], partial := true)]
  {
    CutAtOne(chunk, d, max);
    KeptOfOne(chunk, max);
  }

  lemma {:induction false} CutAtOne(chunk: Chunk, d: nat, max: nat)
    requires LongestFit([chunk], d, max) && Ascii(chunk.text) && max < |chunk.text|
    ensures d == 1 && Shortened(chunk, max) == chunk.(text := chunk.text[|chunk.text| - max..], partial := true)
  {
    AsciiTail(chunk.text, max);
    OneChunk([chunk]);
    CutExactlyWhenTooLong([chunk], d, max);
  }

  lemma {:induction false} KeptOfOne(chunk: Chunk, max: nat)
    requires LongestFit([chunk], 1, max) && max > 0
    ensures Kept([chunk], 1, max) == [Shortened(chunk, max)]
  {
    assert [chunk][1..] == [];
  }

  lemma {:induction false} OneWrite(all: seq<Chunk>, text: Text)
    requires |all| == 1 && Wrote([], all, Stdout, text)
    ensures all[0].stream == Stdout && all[0].text == text
    ensures Joined([all[0]], Stdout) == text && ChunkBytes(all) == Bytes(text)
  {
    assert all[0..] == all == [all[0]] && all[1..] == [];
    assert Joined(all, Stdout) == all[0].text + Joined(all[1..], Stdout);
  }

  lemma {:induction false} NotRedacted(chunks: seq<Chunk>)
    ensures Redacted(chunks, (t: Text) => t) == chunks
  {
    if chunks != [] {
      NotRedacted(chunks[1..]);
    }
  }

  /** A run that wrote once, and not more than one chunk. */
  method WriteOnce(text: Text) returns (out: RunOutput)
    requires Bytes(text) <= CHUNK_BYTES
    ensures fresh(out) && out.Readable() && out.floor == 0
    ensures |out.output| == 1 && out.output[0].stream == Stdout && out.output[0].text == text
  {
    out := new RunOutput(4 * CHUNK_BYTES);
    out.Append(Stdout, text);
    OneWrite(out.all, text);
    assert out.all[0..] == out.all;
  }

  /** One write that is longer than what may be stored, by a runtime that then dies: the store says
      that its output was cut, and whoever gives the run up sees the end of it with no flag at all. */
  method GivenUpLooksWhole(text: Text, max: nat) returns (stored: Persisted, view: V.View)
    requires Ascii(text) && 1024 <= max < |text| <= CHUNK_BYTES
    ensures stored.truncated && Joined(stored.output, Stdout) == text[|text| - max..] != text
    ensures !V.Flagged(view) && view.stdout == LastLines(text[|text| - max..], V.MAX_TAIL_LINES)
  {
    AsciiCut(text, 0);
    var out := WriteOnce(text);
    ghost var chunk := out.output[0];
    assert out.output == [chunk];
    LongChunk(chunk, max);
    ghost var d;
    stored, view, d := ViewGivenUp(out, max, (t: Text) => t, (t: Text) => t, 4 * CHUNK_BYTES, CHUNK_BYTES, 4,
                                   V.MAX_TAIL_LINES);
    EndKept(chunk, d, stored.output, max);
  }

  lemma {:induction false} LongChunk(chunk: Chunk, max: nat)
    requires Ascii(chunk.text) && max < |chunk.text|
    ensures Redacted([chunk], (t: Text) => t) == [chunk] && TooLong([chunk], max, (t: Text) => t)
  {
    NotRedacted([chunk]);
    AsciiCut(chunk.text, 0);
    OnePart(chunk);
  }

  /** What is stored shows the end of the text, and fits when it is stored again. */
  lemma {:induction false} EndKept(chunk: Chunk, d: nat, kept: seq<Chunk>, max: nat)
    requires LongestFit([chunk], d, max) && kept == Kept([chunk], d, max) && chunk.stream == Stdout
    requires Ascii(chunk.text) && 0 < max < |chunk.text|
    ensures |kept| == 1 && Joined(kept, Stdout) == chunk.text[|chunk.text| - max..]
    ensures !TooLong(kept, max, (t: Text) => t)
  {
    OneChunkCut(chunk, d, kept, max);
    AsciiTail(chunk.text, max);
    NotRedacted(kept);
    OnePart(kept[0]);
  }

  lemma {:induction false} OnePart(part: Chunk)
    ensures ChunkBytes([part]) == Bytes(part.text)
    ensures part.stream == Stdout ==> Joined([part], Stdout) == part.text
  {
    assert [part][1..] == [];
    assert part.text + [] == part.text;
  }
}
