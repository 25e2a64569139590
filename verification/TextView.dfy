/** Output as plain text: one page, or everything available cut to its last lines. */
module TextView {
  import opened Base
  import opened OutputStream
  import opened TextLines
  import opened Utf8

  const MAX_TAIL_LINES: nat := 2000

  datatype ViewError = InvalidTailLines | OfPage(page: PageError)

  datatype View = View(
    stdout: Text,
    stderr: Text,
    next: nat,
    hasMore: bool,
    stdoutDropped: nat,
    stderrDropped: nat,
    truncatedBefore: bool,
    liveTruncated: bool,
    persistedTruncated: bool)

  /** Some flag of the view says that output is missing. */
  predicate Flagged(v: View) {
    v.truncatedBefore || v.liveTruncated || v.persistedTruncated
  }

  /** The rest of the stream fits one page, as its only chunk always does. */
  ghost predicate OnePage(rest: seq<Chunk>, maxBytes: int, maxChunks: int) {
    |rest| <= maxChunks && (|rest| <= 1 || ChunkBytes(rest) <= maxBytes)
  }

  lemma {:induction false} CompletePage(
    all: seq<Chunk>, floor: nat, cursor: nat, maxBytes: nat, maxChunks: nat, page: Page)
    requires IsPage(all, floor, cursor, maxBytes, maxChunks, page) && maxChunks > 0
    ensures !page.hasMore <==> OnePage(all[page.effective..], maxBytes, maxChunks)
  {
    var rest := all[page.effective..];
    if page.hasMore {
      var k := page.next - page.effective;
      assert rest == page.chunks + ([all[page.next]] + all[page.next + 1..]);
      ChunkBytesConcat(page.chunks, [all[page.next]] + all[page.next + 1..]);
      assert ([all[page.next]] + all[page.next + 1..])[1..] == all[page.next + 1..];
    } else {
      assert rest == page.chunks;
    }
  }

  /** In a live run that has dropped anything, the rest never fits a page. */
  lemma {:induction false} NoLastPageAfterLoss(all: seq<Chunk>, floor: nat, limit: nat, maxBytes: int, maxChunks: int)
    requires IsStream(all) && Needed(all, floor, limit) && floor > 0
    requires limit >= 4 * CHUNK_BYTES && PageLimits(maxBytes, maxChunks)
    ensures !OnePage(all[floor..], maxBytes, maxChunks)
  {
    DroppedLeavesMuch(all, floor, limit);
  }

  function EffectiveCursor(cursor: nat, floor: nat): nat {
    if cursor < floor then floor else cursor
  }

  /** A page read where the last one ended continues it. */
  lemma {:induction false} NextPage(all: seq<Chunk>, floor: nat, from: nat, cursor: nat, page: Page)
    requires IsPage(all, floor, cursor, MAX_PAGE_BYTES, MAX_PAGE_CHUNKS, page) && floor <= from <= cursor < |all|
    ensures cursor < page.next <= |all| && !page.truncatedBefore && (page.hasMore <==> page.next < |all|)
    ensures all[from..cursor] + page.chunks == all[from..page.next]
  {
  }

  /** Reads the pages after `page` up to the end of a quiet stream. */
  method DrainPages(out: RunOutput, first: Page, ghost from: nat)
    returns (page: Page, chunks: seq<Chunk>)
    requires out.Readable() && out.floor <= from <= first.next <= |out.all| && first.available == |out.all|
    requires first.chunks == out.all[from..first.next]
    requires first.hasMore <==> first.next < |out.all|
    requires first.liveTruncated == out.truncated && first.persistedTruncated == out.persistedTruncated
    ensures chunks == out.all[from..] && page.next == |out.all| && !page.hasMore
    ensures if first.hasMore then !page.truncatedBefore else page == first
    ensures page.liveTruncated == out.truncated && page.persistedTruncated == out.persistedTruncated
  {
    page := first;
    chunks := page.chunks;
    while page.hasMore
      invariant from <= page.next <= |out.all| && chunks == out.all[from..page.next]
      invariant page.hasMore <==> page.next < |out.all|
      invariant page == first || (first.hasMore && !page.truncatedBefore)
      invariant page.liveTruncated == out.truncated && page.persistedTruncated == out.persistedTruncated
      decreases |out.all| - page.next
    {
      var r := out.Output(page.next, MAX_PAGE_BYTES, MAX_PAGE_CHUNKS);
      NextPage(out.all, out.floor, from, page.next, r.value);
      chunks := chunks + r.value.chunks;
      page := r.value;
    }
  }

  lemma {:induction false} JoinedBytes(chunks: seq<Chunk>)
    ensures Bytes(Joined(chunks, Stdout)) + Bytes(Joined(chunks, Stderr)) == ChunkBytes(chunks)
  {
    if chunks != [] {
      JoinedBytes(chunks[1..]);
      BytesConcat(if chunks[0].stream == Stdout then chunks[0].text else [], Joined(chunks[1..], Stdout));
      BytesConcat(if chunks[0].stream == Stderr then chunks[0].text else [], Joined(chunks[1..], Stderr));
    }
  }

  /** The texts of both streams are all there. */
  ghost predicate SameTexts(some: seq<Chunk>, all: seq<Chunk>) {
    Joined(some, Stdout) == Joined(all, Stdout) && Joined(some, Stderr) == Joined(all, Stderr)
  }

  /** A live run has a raised floor exactly when text that was written is no longer there. */
  lemma {:induction false} FloorMeansLoss(all: seq<Chunk>, floor: nat, limit: nat)
    requires floor <= |all| && Needed(all, floor, limit) && ChunkBytes(all[floor..]) <= limit
    ensures floor > 0 <==> !SameTexts(all[floor..], all)
  {
    JoinedBytes(all);
    JoinedBytes(all[floor..]);
    if floor == 0 {
      assert all[0..] == all;
    } else {
      assert all[..floor - 1] + all[floor - 1..] == all;
      ChunkBytesConcat(all[..floor - 1], all[floor - 1..]);
    }
  }

  /** Output as plain strings, with the flags of the last page read. With `tailLines` it is the
      last lines of everything from the cursor on, whatever the limits of the first page. The
      flag for output missing before the cursor then survives only when the first page is also
      the last, which it never is where a live run has dropped anything; the flag for dropped
      output stays. From the start of a live run it is set exactly when text was lost. */
  method TextView(out: RunOutput, cursor: int, maxBytes: int, maxChunks: int, tailLines: Option<int>)
    returns (r: Result<View, ViewError>)
    requires out.Readable()
    ensures r == Err(InvalidTailLines) <==> tailLines.Some? && !(1 <= tailLines.value <= 2000)
    ensures r.Ok? <==>
      && (tailLines.None? || 1 <= tailLines.value <= 2000)
      && 16384 <= maxBytes <= 32768 && 1 <= maxChunks <= 128 && 0 <= cursor <= |out.all|
    ensures r.Ok? && tailLines.None? ==>
      var from, v := EffectiveCursor(cursor, out.floor), r.value;
      && from <= v.next <= |out.all| && (v.hasMore <==> v.next < |out.all|)
      && v.stdout == Joined(out.all[from..v.next], Stdout) && v.stderr == Joined(out.all[from..v.next], Stderr)
      && (v.truncatedBefore <==> cursor < out.floor) && v.stdoutDropped == 0 && v.stderrDropped == 0
    ensures r.Ok? && tailLines.Some? ==>
      var rest, v := out.all[EffectiveCursor(cursor, out.floor)..], r.value;
      && v.next == |out.all| && !v.hasMore
      && v.stdout == LastLines(Joined(rest, Stdout), tailLines.value)
      && v.stderr == LastLines(Joined(rest, Stderr), tailLines.value)
      && v.stdoutDropped == DroppedLines(Joined(rest, Stdout), tailLines.value)
      && v.stderrDropped == DroppedLines(Joined(rest, Stderr), tailLines.value)
      && (v.truncatedBefore <==> cursor < out.floor && OnePage(rest, maxBytes, maxChunks))
      && (out.Valid() ==> !v.truncatedBefore)
    ensures r.Ok? ==> r.value.persistedTruncated == out.persistedTruncated
    ensures r.Ok? ==> (r.value.liveTruncated <==> out.floor > 0)
    ensures r.Ok? && out.Valid() ==> (r.value.liveTruncated <==> !SameTexts(out.all[out.floor..], out.all))
  {
    if tailLines.Some? && (tailLines.value < 1 || tailLines.value > MAX_TAIL_LINES) {
      return Err(InvalidTailLines);
    }
    var read := out.Output(cursor, maxBytes, maxChunks);
    if read.Err? {
      return Err(OfPage(read.error));
    }
    FlagsExact(out, cursor, maxBytes, maxChunks);
    var page, chunks := read.value, read.value.chunks;
    if tailLines.None? {
      return Ok(View(Joined(chunks, Stdout), Joined(chunks, Stderr), page.next, page.hasMore, 0, 0,
                     page.truncatedBefore, page.liveTruncated, page.persistedTruncated));
    }
    CompletePage(out.all, out.floor, cursor, maxBytes, maxChunks, page);
    page, chunks := DrainPages(out, page, page.effective);
    var stdout, stderr := Tail(Joined(chunks, Stdout), tailLines.value), Tail(Joined(chunks, Stderr), tailLines.value);
    TailIsLastLines(Joined(chunks, Stdout), tailLines.value);
    TailIsLastLines(Joined(chunks, Stderr), tailLines.value);
    return Ok(View(stdout.text, stderr.text, page.next, page.hasMore, stdout.dropped, stderr.dropped,
                   page.truncatedBefore, page.liveTruncated, page.persistedTruncated));
  }

  /** What the flags mean for a live run. */
  lemma {:induction false} FlagsExact(out: RunOutput, cursor: nat, maxBytes: int, maxChunks: int)
    requires out.Readable() && PageLimits(maxBytes, maxChunks)
    ensures out.Valid() ==> (out.floor > 0 <==> !SameTexts(out.all[out.floor..], out.all))
    ensures out.Valid() && cursor < out.floor ==> !OnePage(out.all[out.floor..], maxBytes, maxChunks)
  {
    if out.Valid() {
      FloorMeansLoss(out.all, out.floor, out.limit);
      if out.floor > 0 {
        NoLastPageAfterLoss(out.all, out.floor, out.limit, maxBytes, maxChunks);
      }
    }
  }
}
