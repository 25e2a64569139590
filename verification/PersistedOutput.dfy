/** The part of a run's output that is written to the durable store. */
module PersistedOutput {
  import opened Utf8
  import opened OutputStream

  /** What a process record says about its output. */
  datatype Record = Record(output: seq<Chunk>, floor: nat, next: nat, truncated: bool)

  datatype Persisted = Persisted(output: seq<Chunk>, floor: nat, next: nat, bytes: nat, truncated: bool)

  function Redacted(chunks: seq<Chunk>, redact: Text -> Text): (r: seq<Chunk>)
    ensures |r| == |chunks|
    ensures forall k | 0 <= k < |chunks| :: r[k] == chunks[k].(text := redact(chunks[k].text))
  {
    if chunks == [] then [] else [chunks[0].(text := redact(chunks[0].text))] + Redacted(chunks[1..], redact)
  }

  function Shortened(chunk: Chunk, n: nat): Chunk {
    Chunk(chunk.cursor, chunk.stream, TailBytes(chunk.text, n), true)
  }

  /** The chunks from `d` on are the longest suffix that fits whole. */
  ghost predicate LongestFit(chunks: seq<Chunk>, d: nat, max: nat) {
    && d <= |chunks| && ChunkBytes(chunks[d..]) <= max
    && (d > 0 ==> ChunkBytes(chunks[d - 1..]) > max)
  }

  /** That suffix, after the tail of the chunk before it where bytes remain. */
  ghost function Kept(chunks: seq<Chunk>, d: nat, max: nat): seq<Chunk>
    requires LongestFit(chunks, d, max)
  {
    var spare := max - ChunkBytes(chunks[d..]);
    (if d > 0 && spare > 0 then [Shortened(chunks[d - 1], spare)] else []) + chunks[d..]
  }

  function Reversed(chunks: seq<Chunk>): (r: seq<Chunk>)
    ensures |r| == |chunks|
  {
    if chunks == [] then [] else Reversed(chunks[1..]) + [chunks[0]]
  }

  lemma {:induction false} ReversedPush(chunks: seq<Chunk>, chunk: Chunk)
    ensures Reversed(chunks + [chunk]) == [chunk] + Reversed(chunks)
  {
    if chunks == [] {
      assert chunks + [chunk] == [chunk];
      assert Reversed([chunk][1..]) == [];
    } else {
      assert (chunks + [chunk])[1..] == chunks[1..] + [chunk];
      ReversedPush(chunks[1..], chunk);
    }
  }

  lemma {:induction false} OneMoreChunk(chunks: seq<Chunk>, k: nat)
    requires k < |chunks|
    ensures chunks[k..] == [chunks[k]] + chunks[k + 1..]
    ensures ChunkBytes(chunks[k..]) == Bytes(chunks[k].text) + ChunkBytes(chunks[k + 1..])
  {
  }

  lemma {:induction false} SuffixBytesGrow(chunks: seq<Chunk>, i: nat, j: nat)
    requires i <= j <= |chunks|
    ensures ChunkBytes(chunks[j..]) <= ChunkBytes(chunks[i..])
    decreases j - i
  {
    if i < j {
      OneMoreChunk(chunks, i);
      SuffixBytesGrow(chunks, i + 1, j);
    }
  }

  /** The longest suffix that fits is unique, so the limit decides what is kept. */
  lemma {:induction false} OneLongestFit(chunks: seq<Chunk>, d: nat, e: nat, max: nat)
    requires LongestFit(chunks, d, max) && LongestFit(chunks, e, max)
    ensures d == e
  {
    if d < e {
      SuffixBytesGrow(chunks, d, e - 1);
    } else if e < d {
      SuffixBytesGrow(chunks, e, d - 1);
    }
  }

  /** Loop state: the chunks from `index` on are kept whole. */
  ghost predicate Walked(redacted: seq<Chunk>, index: nat, kept: seq<Chunk>, bytes: nat, max: nat) {
    && index <= |redacted| && Reversed(kept) == redacted[index..]
    && bytes == ChunkBytes(redacted[index..]) <= max
  }

  /** What is kept when the walk ends at `index`. */
  ghost predicate Done(redacted: seq<Chunk>, index: nat, kept: seq<Chunk>, bytes: nat, max: nat) {
    && LongestFit(redacted, index, max) && Reversed(kept) == Kept(redacted, index, max)
    && bytes == ChunkBytes(Reversed(kept))
  }

  lemma {:induction false} WalkedOneMore(
    redacted: seq<Chunk>, index: nat, kept: seq<Chunk>, bytes: nat, max: nat)
    requires Walked(redacted, index, kept, bytes, max) && index > 0
    requires bytes + Bytes(redacted[index - 1].text) <= max
    ensures Walked(redacted, index - 1, kept + [redacted[index - 1]], bytes + Bytes(redacted[index - 1].text), max)
  {
    OneMoreChunk(redacted, index - 1);
    ReversedPush(kept, redacted[index - 1]);
  }

  lemma {:induction false} AllKept(redacted: seq<Chunk>, kept: seq<Chunk>, bytes: nat, max: nat)
    requires Walked(redacted, 0, kept, bytes, max)
    ensures Done(redacted, 0, kept, bytes, max)
  {
  }

  lemma {:induction false} CutHere(
    redacted: seq<Chunk>, index: nat, kept: seq<Chunk>, bytes: nat, max: nat)
    requires Walked(redacted, index, kept, bytes, max) && index > 0
    requires bytes + Bytes(redacted[index - 1].text) > max
    ensures bytes == max ==> Done(redacted, index, kept, bytes, max)
    ensures bytes < max ==>
      var part := Shortened(redacted[index - 1], max - bytes);
      Done(redacted, index, kept + [part], bytes + Bytes(part.text), max)
  {
    OneMoreChunk(redacted, index - 1);
    if bytes < max {
      var part := Shortened(redacted[index - 1], max - bytes);
      ReversedPush(kept, part);
      PartBytes(part, redacted[index..]);
    } else {
      assert [] + redacted[index..] == redacted[index..];
    }
  }

  lemma {:induction false} PartBytes(part: Chunk, rest: seq<Chunk>)
    ensures ChunkBytes([part] + rest) == Bytes(part.text) + ChunkBytes(rest)
  {
  }

  /** Keeps the newest output: walks the chunks backwards, redacting each, until the limit. */
  method Persist(record: Record, max: nat, redact: Text -> Text) returns (r: Persisted, ghost d: nat)
    ensures LongestFit(Redacted(record.output, redact), d, max)
    ensures r.output == Kept(Redacted(record.output, redact), d, max)
    ensures r.bytes == ChunkBytes(r.output)
    ensures r.truncated <==> record.truncated || record.floor > 0 || d > 0
    ensures r.floor == if r.output == [] then record.next else r.output[0].cursor
    ensures r.next == record.next
  {
    ghost var redacted := Redacted(record.output, redact);
    var bytes: nat := 0;
    var truncated := record.truncated || record.floor > 0;
    var kept: seq<Chunk> := [];
    var index: nat := |record.output|;
    var cut := false;
    while index > 0 && !cut
      invariant 0 <= index <= |redacted|
      invariant if cut then index > 0 && Done(redacted, index, kept, bytes, max)
                else Walked(redacted, index, kept, bytes, max)
      invariant truncated <==> record.truncated || record.floor > 0 || cut
      decreases index, !cut
    {
      var chunk := record.output[index - 1];
      var text := redact(chunk.text);
      var size := Bytes(text);
      if bytes + size <= max {
        WalkedOneMore(redacted, index, kept, bytes, max);
        kept := kept + [Chunk(chunk.cursor, chunk.stream, text, chunk.partial)];
        bytes := bytes + size;
        index := index - 1;
      } else {
        CutHere(redacted, index, kept, bytes, max);
        truncated := true;
        var remaining := max - bytes;
        if remaining > 0 {
          var tail := DecodedTail(text, remaining);
          kept := kept + [Chunk(chunk.cursor, chunk.stream, tail, true)];
          bytes := bytes + Bytes(tail);
        }
        cut := true;
      }
    }
    if !cut {
      AllKept(redacted, kept, bytes, max);
    }
    d := index;
    var output := Reversed(kept);
    var floor := if |output| > 0 then output[0].cursor else record.next;
    r := Persisted(output, floor, record.next, bytes, truncated);
  }

  /** The end of a text, after replacement characters for the bytes of a split one. */
  ghost predicate IsTail(tail: Text, text: Text) {
    exists from :: IsTailAt(tail, text, from)
  }

  ghost predicate IsTailAt(tail: Text, text: Text, from: int) {
    && 0 <= from <= |text| && |text| - from <= |tail| <= |text| - from + 3
    && tail == Replacements(|tail| - (|text| - from)) + text[from..]
  }

  /** How many bytes of a split character the last `n` bytes of a text start with. */
  function StrayBytes(text: Text, n: nat): (r: nat)
    ensures r <= 3
  {
    if n <= Bytes(text) then CutAt(text, Bytes(text) - n).stray else 0
  }

  lemma {:induction false} ShortenedText(text: Text, n: nat)
    requires n < Bytes(text)
    ensures IsTail(TailBytes(text, n), text)
    ensures Bytes(TailBytes(text, n)) == n + 2 * StrayBytes(text, n)
  {
    var tail := TailBytes(text, n);
    var c := CutAt(text, Bytes(text) - n);
    TailSize(text, n);
    assert |tail| == c.stray + (|text| - c.from);
    assert IsTailAt(tail, text, c.from);
  }

  /** One chunk is another, whole or with the front of its text gone. */
  ghost predicate Cuts(part: Chunk, whole: Chunk) {
    || part == whole
    || (part.cursor == whole.cursor && part.stream == whole.stream && part.partial && IsTail(part.text, whole.text))
  }

  /** What is kept is a suffix of the redacted chunks in cursor order with at most the first
      one shortened, and all of them when the first already fits. */
  lemma {:induction false} KeptIsASuffix(chunks: seq<Chunk>, d: nat, max: nat) returns (from: nat)
    requires LongestFit(chunks, d, max)
    ensures from <= |chunks| && |Kept(chunks, d, max)| == |chunks| - from
    ensures forall k | 0 < k < |Kept(chunks, d, max)| :: Kept(chunks, d, max)[k] == chunks[from + k]
    ensures from < |chunks| ==> Cuts(Kept(chunks, d, max)[0], chunks[from])
    ensures d == 0 ==> Kept(chunks, d, max) == chunks
  {
    var spare := max - ChunkBytes(chunks[d..]);
    from := if d > 0 && spare > 0 then d - 1 else d;
    if from < d {
      OneMoreChunk(chunks, d - 1);
      ShortenedText(chunks[d - 1].text, spare);
    }
  }

  /** Its size: within the limit when everything fits; otherwise exactly the limit plus two
      bytes for each byte of a split character, so never more than six bytes over. */
  lemma {:induction false} KeptSize(chunks: seq<Chunk>, d: nat, max: nat)
    requires LongestFit(chunks, d, max)
    ensures d == 0 ==> ChunkBytes(Kept(chunks, d, max)) <= max
    ensures d > 0 ==>
      var stray := StrayBytes(chunks[d - 1].text, max - ChunkBytes(chunks[d..]));
      ChunkBytes(Kept(chunks, d, max)) == max + 2 * stray <= max + 6
  {
    var spare := max - ChunkBytes(chunks[d..]);
    if d == 0 {
      assert Kept(chunks, 0, max) == chunks[0..];
    } else if spare == 0 {
      NoSpare(chunks[d - 1].text);
      assert Kept(chunks, d, max) == chunks[d..];
    } else {
      KeptSizeCut(chunks, d, max, spare);
    }
  }

  lemma {:induction false} KeptSizeCut(chunks: seq<Chunk>, d: nat, max: nat, spare: nat)
    requires LongestFit(chunks, d, max) && d > 0 && spare == max - ChunkBytes(chunks[d..]) > 0
    ensures ChunkBytes(Kept(chunks, d, max)) == max + 2 * StrayBytes(chunks[d - 1].text, spare)
  {
    CutChunkIsLonger(chunks, d, max);
    ShortenedText(chunks[d - 1].text, spare);
    KeptWithPart(chunks, d, max, spare);
    PartBytes(Shortened(chunks[d - 1], spare), chunks[d..]);
  }

  lemma {:induction false} CutChunkIsLonger(chunks: seq<Chunk>, d: nat, max: nat)
    requires LongestFit(chunks, d, max) && d > 0
    ensures Bytes(chunks[d - 1].text) > max - ChunkBytes(chunks[d..])
  {
    OneMoreChunk(chunks, d - 1);
  }

  lemma {:induction false} KeptWithPart(chunks: seq<Chunk>, d: nat, max: nat, spare: nat)
    requires LongestFit(chunks, d, max) && d > 0 && spare == max - ChunkBytes(chunks[d..]) > 0
    ensures Kept(chunks, d, max) == [Shortened(chunks[d - 1], spare)] + chunks[d..]
  {
  }

  lemma {:induction false} NoSpare(text: Text)
    ensures StrayBytes(text, 0) == 0
  {
  }

  // ----- Storing a run's output, and finding it again -----

  /** Something is cut off exactly when the redacted output is longer than the limit. */
  lemma {:induction false} CutExactlyWhenTooLong(chunks: seq<Chunk>, d: nat, max: nat)
    requires LongestFit(chunks, d, max)
    ensures d > 0 <==> ChunkBytes(chunks) > max
  {
    assert chunks[0..] == chunks;
    if d > 0 {
      SuffixBytesGrow(chunks, 0, d - 1);
    }
  }

  lemma {:induction false} KeptIsNumbered(chunks: seq<Chunk>, floor: nat, d: nat, max: nat)
    requires LongestFit(chunks, d, max) && Numbered(chunks, floor)
    ensures
      var kept := Kept(chunks, d, max);
      |kept| <= |chunks| && Numbered(kept, floor + |chunks| - |kept|)
  {
  }

  lemma {:induction false} KeptWhole(chunks: seq<Chunk>, max: nat)
    requires LongestFit(chunks, 0, max)
    ensures Kept(chunks, 0, max) == chunks
  {
    assert chunks[0..] == chunks;
  }

  lemma {:induction false} RedactedIsNumbered(chunks: seq<Chunk>, floor: nat, redact: Text -> Text)
    requires Numbered(chunks, floor)
    ensures Numbered(Redacted(chunks, redact), floor)
  {
  }

  /** Writes the record of a run to the store, and notes on it whether what is stored was cut. */
  method Store(out: RunOutput, max: nat, redact: Text -> Text) returns (r: Persisted, ghost d: nat)
    requires out.Readable()
    modifies out`persistedTruncated
    ensures out.persistedTruncated == r.truncated
    ensures Numbered(r.output, r.floor) && r.floor + |r.output| == r.next == out.next
    ensures r.truncated <==> out.floor > 0 || ChunkBytes(Redacted(out.output, redact)) > max
    ensures ChunkBytes(Redacted(out.output, redact)) <= max ==> r.output == Redacted(out.output, redact)
    ensures LongestFit(Redacted(out.output, redact), d, max)
    ensures r.output == Kept(Redacted(out.output, redact), d, max)
    ensures r.bytes == ChunkBytes(r.output) <= max + 6 && r.floor >= out.floor
  {
    ghost var redacted := Redacted(out.output, redact);
    r, d := Persist(Record(out.output, out.floor, out.next, out.truncated), max, redact);
    out.persistedTruncated := r.truncated;
    SuffixPositions(out.all, out.floor, out.output);
    RedactedIsNumbered(out.output, out.floor, redact);
    StoredFacts(redacted, out.floor, d, max);
  }

  lemma {:induction false} StoredFacts(chunks: seq<Chunk>, floor: nat, d: nat, max: nat)
    requires LongestFit(chunks, d, max) && Numbered(chunks, floor)
    ensures
      var kept := Kept(chunks, d, max);
      var from := if kept == [] then floor + |chunks| else kept[0].cursor;
      && from >= floor && from + |kept| == floor + |chunks| && Numbered(kept, from)
      && (d > 0 <==> ChunkBytes(chunks) > max)
      && (d == 0 ==> kept == chunks) && ChunkBytes(kept) <= max + 6
  {
    CutExactlyWhenTooLong(chunks, d, max);
    KeptIsNumbered(chunks, floor, d, max);
    KeptSize(chunks, d, max);
    if d == 0 {
      KeptWhole(chunks, max);
    }
  }

  /** The record as it is found in the store. */
  method Restore(stored: Persisted, total: nat, limit: nat) returns (out: RunOutput)
    requires Numbered(stored.output, stored.floor) && stored.floor + |stored.output| == stored.next
    ensures fresh(out) && out.Readable() && out.output == stored.output && out.floor == stored.floor
    ensures out.next == stored.next && out.persistedTruncated == stored.truncated
    ensures out.all[out.floor..] == stored.output
  {
    out := new RunOutput.Restored(stored.output, stored.floor, stored.next, total, stored.truncated, limit);
  }
}
