/** The output of a run: splitting what the child writes, appending, trimming,
    and reading it in pages while it grows and is trimmed, or restored from the store. */
module OutputStream {
  import opened Base
  import opened TextLines
  import opened Utf8

  const CHUNK_BYTES: nat := 16384
  const MAX_PAGE_BYTES: nat := 32768
  const MAX_PAGE_CHUNKS: nat := 128

  datatype Stream = Stdout | Stderr

  /** `partial` marks a stored chunk whose front was cut off. */
  datatype Chunk = Chunk(cursor: nat, stream: Stream, text: Text, partial: bool)

  datatype PageError = InvalidPageSize | InvalidPageChunks | InvalidCursor

  datatype Page = Page(
    effective: nat,
    floor: nat,
    next: nat,
    available: nat,
    hasMore: bool,
    truncatedBefore: bool,
    liveTruncated: bool,
    persistedTruncated: bool,
    chunks: seq<Chunk>)

  // ----- Splitting -----

  /** The part `a` could not have taken the first character of its successor `b`. */
  ghost predicate Full(a: Text, b: Text, maxBytes: nat) {
    b != [] && Bytes(a) + Size(b[0]) > maxBytes
  }

  /** Every part fits, and none could have been longer. */
  ghost predicate Greedy(parts: seq<Text>, maxBytes: nat) {
    && (forall i | 0 <= i < |parts| :: Bytes(parts[i]) <= maxBytes)
    && (forall i | 0 <= i < |parts| - 1 :: Full(parts[i], parts[i + 1], maxBytes))
  }

  lemma {:induction false} GreedyPush(parts: seq<Text>, part: Text, maxBytes: nat)
    requires Greedy(parts, maxBytes) && Bytes(part) <= maxBytes
    requires parts != [] ==> Full(parts[|parts| - 1], part, maxBytes)
    ensures Greedy(parts + [part], maxBytes)
  {
  }

  /** The first `i` characters are in finished parts, except for `chars`. */
  ghost predicate Taken(text: Text, i: nat, parts: seq<Text>, chars: Text, maxBytes: nat) {
    && i <= |text| && Concat(parts) + chars == text[..i]
    && Greedy(parts, maxBytes) && Bytes(chars) <= maxBytes && (i > 0 ==> chars != [])
    && (parts != [] ==> Full(parts[|parts| - 1], chars, maxBytes))
  }

  lemma {:induction false} PushChar(chars: Text, c: char)
    ensures Bytes(chars + [c]) == Bytes(chars) + Size(c)
  {
    BytesConcat(chars, [c]);
    assert Bytes([c]) == Size(c) + Bytes([c][1..]);
  }

  lemma {:induction false} TakeMore(text: Text, i: nat, parts: seq<Text>, chars: Text, maxBytes: nat)
    requires Taken(text, i, parts, chars, maxBytes) && i < |text| && Bytes(chars) + Size(text[i]) <= maxBytes
    ensures Taken(text, i + 1, parts, chars + [text[i]], maxBytes)
  {
    PushChar(chars, text[i]);
    assert Concat(parts) + (chars + [text[i]]) == text[..i] + [text[i]] == text[..i + 1];
  }

  lemma {:induction false} TakeNewPart(text: Text, i: nat, parts: seq<Text>, chars: Text, maxBytes: nat)
    requires Taken(text, i, parts, chars, maxBytes) && i < |text| && chars != [] && maxBytes >= 4
    requires Bytes(chars) + Size(text[i]) > maxBytes
    ensures Taken(text, i + 1, parts + [chars], [text[i]], maxBytes)
  {
    PushChar([], text[i]);
    assert [] + [text[i]] == [text[i]];
    ConcatAppend(parts, chars);
    GreedyPush(parts, chars, maxBytes);
    assert Concat(parts) + chars + [text[i]] == text[..i] + [text[i]] == text[..i + 1];
  }

  /** Splits a text into parts of at most `maxBytes`, each as long as possible. */
  method SplitUtf8Text(text: Text, maxBytes: nat) returns (parts: seq<Text>)
    requires maxBytes >= 4
    ensures Concat(parts) == text && Greedy(parts, maxBytes)
    ensures parts != [] && (|parts| == 1 <==> Bytes(text) <= maxBytes)
  {
    if Bytes(text) <= maxBytes {
      ConcatAppend([], text);
      return [text];
    }
    parts := [];
    var chars: Text := [];
    var bytes := 0;
    var i := 0;
    while i < |text|
      invariant Taken(text, i, parts, chars, maxBytes) && bytes == Bytes(chars)
    {
      var size := Size(text[i]);
      if chars != [] && bytes + size > maxBytes {
        TakeNewPart(text, i, parts, chars, maxBytes);
        parts := parts + [chars];
        chars := [];
        bytes := 0;
      } else {
        TakeMore(text, i, parts, chars, maxBytes);
      }
      PushChar(chars, text[i]);
      assert chars == [] ==> chars + [text[i]] == [text[i]];
      chars := chars + [text[i]];
      bytes := bytes + size;
      i := i + 1;
    }
    assert text[..i] == text;
    ConcatAppend(parts, chars);
    GreedyPush(parts, chars, maxBytes);
    parts := parts + [chars];
    OnePart(parts);
  }

  lemma {:induction false} OnePart(parts: seq<Text>)
    ensures |parts| == 1 ==> Concat(parts) == parts[0]
  {
  }

  // ----- The chunk list -----

  function ChunkBytes(chunks: seq<Chunk>): nat {
    if chunks == [] then 0 else Bytes(chunks[0].text) + ChunkBytes(chunks[1..])
  }

  lemma {:induction false} ChunkBytesConcat(a: seq<Chunk>, b: seq<Chunk>)
    ensures ChunkBytes(a + b) == ChunkBytes(a) + ChunkBytes(b)
  {
    if a == [] {
      assert a + b == b;
    } else {
      assert (a + b)[1..] == a[1..] + b;
      ChunkBytesConcat(a[1..], b);
    }
  }

  /** The text of one stream in a list of chunks. */
  function Joined(chunks: seq<Chunk>, stream: Stream): Text {
    if chunks == [] then []
    else (if chunks[0].stream == stream then chunks[0].text else []) + Joined(chunks[1..], stream)
  }

  lemma {:induction false} JoinedConcat(a: seq<Chunk>, b: seq<Chunk>, stream: Stream)
    ensures Joined(a + b, stream) == Joined(a, stream) + Joined(b, stream)
  {
    if a == [] {
      assert a + b == b;
    } else {
      assert (a + b)[1..] == a[1..] + b;
      JoinedConcat(a[1..], b, stream);
    }
  }

  /** Chunks carry the positions from `from` on. */
  ghost predicate Numbered(chunks: seq<Chunk>, from: nat) {
    forall k | 0 <= k < |chunks| :: chunks[k].cursor == from + k
  }

  predicate Fits(chunk: Chunk) {
    Bytes(chunk.text) <= CHUNK_BYTES
  }

  /** No chunk exceeds the chunk size. */
  ghost predicate Small(chunks: seq<Chunk>) {
    forall k | 0 <= k < |chunks| :: Fits(chunks[k])
  }

  ghost predicate IsStream(all: seq<Chunk>) {
    Numbered(all, 0) && Small(all)
  }

  predicate IsSuffix(all: seq<Chunk>, floor: nat, output: seq<Chunk>) {
    floor <= |all| && output == all[floor..]
  }

  lemma {:induction false} SuffixPositions(all: seq<Chunk>, floor: nat, output: seq<Chunk>)
    requires Numbered(all, 0) && IsSuffix(all, floor, output)
    ensures Numbered(output, floor) && floor + |output| == |all|
    ensures Small(all) ==> Small(output)
  {
  }

  lemma {:induction false} SuffixOfSuffix(
    all: seq<Chunk>, floor: nat, output: seq<Chunk>, from: nat, rest: seq<Chunk>)
    requires IsSuffix(all, floor, output) && floor <= from <= |all| && rest == output[from - floor..]
    ensures IsSuffix(all, from, rest)
  {
  }

  lemma {:induction false} DroppedOldest(all: seq<Chunk>, from: nat, output: seq<Chunk>)
    requires IsSuffix(all, from, output) && output != []
    ensures IsSuffix(all, from + 1, output[1..])
    ensures ChunkBytes(output) == Bytes(output[0].text) + ChunkBytes(output[1..])
  {
  }

  lemma {:induction false} PushedBytes(chunks: seq<Chunk>, chunk: Chunk)
    ensures ChunkBytes(chunks + [chunk]) == ChunkBytes(chunks) + Bytes(chunk.text)
  {
    OneChunk([chunk]);
    ChunkBytesConcat(chunks, [chunk]);
  }

  lemma {:induction false} PushedSuffix(all: seq<Chunk>, floor: nat, output: seq<Chunk>, chunk: Chunk)
    requires IsSuffix(all, floor, output)
    ensures IsSuffix(all + [chunk], floor, output + [chunk])
  {
    assert (all + [chunk])[floor..] == all[floor..] + [chunk];
  }

  lemma {:induction false} PushedStream(all: seq<Chunk>, chunk: Chunk)
    requires IsStream(all) && chunk.cursor == |all| && Fits(chunk)
    ensures IsStream(all + [chunk])
  {
    var longer := all + [chunk];
    forall k | 0 <= k < |longer| ensures longer[k].cursor == k && Fits(longer[k]) {
      if k < |all| {
        assert longer[k] == all[k] && Fits(all[k]);
      } else {
        assert longer[k] == chunk;
      }
    }
  }

  /** Nothing is known of these chunks but their positions. */
  ghost function Unknown(n: nat): (r: seq<Chunk>)
    ensures |r| == n && Numbered(r, 0)
  {
    if n == 0 then [] else Unknown(n - 1) + [Chunk(n - 1, Stdout, [], true)]
  }

  /** The last chunk dropped could not have been kept. */
  ghost predicate Needed(all: seq<Chunk>, floor: nat, limit: nat) {
    floor > 0 ==> floor <= |all| && ChunkBytes(all[floor - 1..]) > limit
  }

  lemma {:induction false} StillNeeded(all: seq<Chunk>, floor: nat, limit: nat, chunk: Chunk)
    requires Needed(all, floor, limit)
    ensures Needed(all + [chunk], floor, limit)
  {
    if floor > 0 {
      assert (all + [chunk])[floor - 1..] == all[floor - 1..] + [chunk];
      ChunkBytesConcat(all[floor - 1..], [chunk]);
    }
  }

  /** So, once something was dropped, what is left is more than one chunk below the limit. */
  lemma {:induction false} DroppedLeavesMuch(all: seq<Chunk>, floor: nat, limit: nat)
    requires IsStream(all) && Needed(all, floor, limit) && floor > 0
    ensures ChunkBytes(all[floor..]) + CHUNK_BYTES > limit
  {
    assert all[floor - 1..][1..] == all[floor..];
    assert Fits(all[floor - 1]);
  }

  /** `all` continues `before` with chunks of one stream that spell out `text`. */
  ghost predicate Wrote(before: seq<Chunk>, all: seq<Chunk>, stream: Stream, text: Text) {
    && before <= all && Joined(all[|before|..], stream) == text
    && forall k | |before| <= k < |all| :: all[k].stream == stream
  }

  lemma {:induction false} WroteMore(before: seq<Chunk>, all: seq<Chunk>, chunk: Chunk, parts: seq<Text>, i: nat)
    requires i < |parts| && Wrote(before, all, chunk.stream, Concat(parts[..i])) && chunk.text == parts[i]
    ensures Wrote(before, all + [chunk], chunk.stream, Concat(parts[..i + 1]))
  {
    JoinedPush(all, |before|, chunk);
    ConcatAppend(parts[..i], parts[i]);
    assert parts[..i + 1] == parts[..i] + [parts[i]];
  }

  /** What a page shows of the stream `all` when everything before `floor` is gone. A first
      chunk that alone exceeds the page, as a stored one may, is shown all the same. */
  ghost predicate IsPage(all: seq<Chunk>, floor: nat, cursor: nat, maxBytes: nat, maxChunks: nat, page: Page) {
    && floor <= |all| && cursor <= |all|
    && page.floor == floor && page.available == |all|
    && page.effective == (if cursor < floor then floor else cursor)
    && page.effective <= page.next <= |all|
    && page.chunks == all[page.effective..page.next]
    && (page.truncatedBefore <==> cursor < floor)
    && (page.hasMore <==> page.next < |all|)
    && (page.effective < |all| ==> page.effective < page.next)
    && |page.chunks| <= maxChunks && (ChunkBytes(page.chunks) <= maxBytes || |page.chunks| == 1)
    && (page.hasMore ==> |page.chunks| == maxChunks || ChunkBytes(page.chunks) + Bytes(all[page.next].text) > maxBytes)
  }

  class RunOutput {
    const limit: nat
    var output: seq<Chunk>
    var floor: nat
    var next: nat
    var totalBytes: nat
    var retainedBytes: nat
    /** Output was dropped here, and from what is stored. */
    var truncated: bool
    var persistedTruncated: bool
    /** Everything ever appended. */
    ghost var all: seq<Chunk>

    /** Live: what is kept is all that fits of everything written. */
    ghost predicate Valid()
      reads this
    {
      Linked() && retainedBytes <= limit
    }

    /** Live or restored: what is kept are the chunks from `floor` on. */
    ghost predicate Readable()
      reads this
    {
      && Numbered(all, 0) && next == |all| && IsSuffix(all, floor, output)
      && (truncated <==> floor > 0)
    }

    constructor (limit: nat)
      requires limit >= 4 * CHUNK_BYTES
      ensures Valid() && this.limit == limit && all == [] && floor == 0 && !persistedTruncated
    {
      this.limit := limit;
      output, all := [], [];
      floor, next, totalBytes, retainedBytes := 0, 0, 0, 0;
      truncated, persistedTruncated := false, false;
    }

    /** The record of a run as another runtime, or this one after a restart, finds it stored.
        What was written before `floor` is not known there. */
    constructor Restored(stored: seq<Chunk>, floor: nat, next: nat, total: nat, persistedTruncated: bool, limit: nat)
      requires Numbered(stored, floor) && floor + |stored| == next
      ensures Readable() && output == stored && this.floor == floor && this.next == next
      ensures all[floor..] == stored && this.persistedTruncated == persistedTruncated
    {
      this.limit := limit;
      output, this.floor, this.next := stored, floor, next;
      totalBytes, retainedBytes := total, ChunkBytes(stored);
      truncated, this.persistedTruncated := floor > 0, persistedTruncated;
      all := Unknown(floor) + stored;
    }

    /** Everything but the bound on the retained bytes. */
    ghost predicate Linked()
      reads this
    {
      && Readable() && limit >= 4 * CHUNK_BYTES
      && Small(all) && totalBytes == ChunkBytes(all) && retainedBytes == ChunkBytes(output)
      && Needed(all, floor, limit)
    }

    /** Drops the oldest chunks while more is retained than allowed, never the last one. */
    method DropOldest() returns (ghost from: nat)
      requires IsSuffix(all, floor, output) && retainedBytes == ChunkBytes(output)
      modifies this`output, this`retainedBytes, this`truncated
      ensures IsSuffix(all, from, output) && retainedBytes == ChunkBytes(output)
      ensures from >= floor && (retainedBytes <= limit || |output| <= 1)
      ensures truncated <==> old(truncated) || from > floor
      ensures old(output) != [] ==> output != []
      ensures from > floor ==> ChunkBytes(all[from - 1..]) > limit
    {
      from := floor;
      while retainedBytes > limit && |output| > 1
        invariant from >= floor && IsSuffix(all, from, output) && retainedBytes == ChunkBytes(output)
        invariant truncated <==> old(truncated) || from > floor
        invariant old(output) != [] ==> output != []
        invariant from > floor ==> ChunkBytes(all[from - 1..]) > limit
        decreases |output|
      {
        DroppedOldest(all, from, output);
        retainedBytes := retainedBytes - Bytes(output[0].text);
        output := output[1..];
        truncated := true;
        from := from + 1;
      }
    }

    /** Makes the retained chunks fit the limit. */
    method Trim()
      requires Linked()
      modifies this`output, this`floor, this`retainedBytes, this`truncated
      ensures Valid() && floor >= old(floor)
      ensures old(output) != [] ==> output != []
      ensures floor > old(floor) ==> ChunkBytes(all[floor - 1..]) > limit
    {
      ghost var from := DropOldest();
      SuffixPositions(all, from, output);
      OneChunk(output);
      floor := if |output| > 0 then output[0].cursor else next;
    }

    /** Adds one chunk at the next position. */
    method Push(stream: Stream, part: Text)
      requires Linked() && Bytes(part) <= CHUNK_BYTES
      modifies this
      ensures Linked() && floor == old(floor)
      ensures all == old(all) + [Chunk(|old(all)|, stream, part, false)] && output != []
    {
      var chunk := Chunk(next, stream, part, false);
      PushedStream(all, chunk);
      PushedSuffix(all, floor, output, chunk);
      PushedBytes(all, chunk);
      PushedBytes(output, chunk);
      StillNeeded(all, floor, limit, chunk);
      output := output + [chunk];
      all := all + [chunk];
      next := next + 1;
      totalBytes := totalBytes + Bytes(part);
      retainedBytes := retainedBytes + Bytes(part);
    }

    method PushPart(stream: Stream, parts: seq<Text>, i: nat, ghost before: seq<Chunk>)
      requires Linked() && i < |parts| && Bytes(parts[i]) <= CHUNK_BYTES
      requires Wrote(before, all, stream, Concat(parts[..i]))
      modifies this
      ensures Linked() && floor == old(floor) && output != [] && |all| == |old(all)| + 1
      ensures Wrote(before, all, stream, Concat(parts[..i + 1]))
    {
      ghost var was := all;
      Push(stream, parts[i]);
      WroteMore(before, was, Chunk(|was|, stream, parts[i], false), parts, i);
    }

    /** A write of the child: its text becomes the newest chunks. */
    method Append(stream: Stream, text: Text)
      requires Valid()
      modifies this
      ensures Valid() && floor >= old(floor)
      ensures Wrote(old(all), all, stream, text) && output != []
      ensures Bytes(text) <= 16384 <==> |all| == |old(all)| + 1
      ensures forall k | |old(all)| <= k < |all| :: Bytes(all[k].text) <= 16384
      ensures floor > old(floor) ==> ChunkBytes(all[floor - 1..]) > limit
    {
      var parts := SplitUtf8Text(text, CHUNK_BYTES);
      ghost var before := all;
      var i := 0;
      while i < |parts|
        invariant 0 <= i <= |parts| && Linked() && floor == old(floor) && |all| == |before| + i
        invariant Wrote(before, all, stream, Concat(parts[..i]))
        invariant i > 0 ==> output != []
      {
        PushPart(stream, parts, i, before);
        i := i + 1;
      }
      assert parts[..i] == parts;
      Trim();
    }

    /** One page of output from `cursor`, within the page limits. */
    method Output(cursor: int, maxBytes: int, maxChunks: int) returns (r: Result<Page, PageError>)
      requires Readable()
      ensures r == Err(InvalidPageSize) <==> !(16384 <= maxBytes <= 32768)
      ensures r == Err(InvalidPageChunks) <==> 16384 <= maxBytes <= 32768 && !(1 <= maxChunks <= 128)
      ensures r.Ok? <==> 16384 <= maxBytes <= 32768 && 1 <= maxChunks <= 128 && 0 <= cursor <= |all|
      ensures r.Ok? ==> IsPage(all, floor, cursor, maxBytes, maxChunks, r.value)
      ensures r.Ok? && Small(all) ==> ChunkBytes(r.value.chunks) <= maxBytes
      ensures r.Ok? ==> (r.value.liveTruncated <==> floor > 0) && r.value.persistedTruncated == persistedTruncated
    {
      if maxBytes < CHUNK_BYTES || maxBytes > MAX_PAGE_BYTES {
        return Err(InvalidPageSize);
      }
      if maxChunks < 1 || maxChunks > MAX_PAGE_CHUNKS {
        return Err(InvalidPageChunks);
      }
      if cursor < 0 || cursor > next {
        return Err(InvalidCursor);
      }
      var page := ReadPage(all, floor, next, output, cursor, maxBytes, maxChunks);
      return Ok(page.(liveTruncated := truncated, persistedTruncated := persistedTruncated));
    }
  }

  predicate PageLimits(maxBytes: int, maxChunks: int) {
    CHUNK_BYTES <= maxBytes <= MAX_PAGE_BYTES && 1 <= maxChunks <= MAX_PAGE_CHUNKS
  }

  /** The retained chunks at or after a cursor. */
  method FromCursor(output: seq<Chunk>, floor: nat, effective: nat) returns (available: seq<Chunk>)
    requires Numbered(output, floor) && floor <= effective <= floor + |output|
    ensures available == output[effective - floor..]
  {
    available := [];
    var d := effective - floor;
    var i := 0;
    while i < |output|
      invariant 0 <= i <= |output|
      invariant available == if i <= d then [] else output[d..i]
    {
      if output[i].cursor >= effective {
        available := available + [output[i]];
      }
      i := i + 1;
    }
  }

  /** The longest run of leading chunks that fits the page, never an empty one. */
  method FillPage(available: seq<Chunk>, maxBytes: nat, maxChunks: nat) returns (chunks: seq<Chunk>)
    requires PageLimits(maxBytes, maxChunks)
    ensures chunks <= available && (available != [] ==> chunks != [])
    ensures |chunks| <= maxChunks && (ChunkBytes(chunks) <= maxBytes || |chunks| == 1)
    ensures Small(available) ==> ChunkBytes(chunks) <= maxBytes
    ensures |chunks| < |available| ==>
      |chunks| == maxChunks || ChunkBytes(chunks) + Bytes(available[|chunks|].text) > maxBytes
  {
    chunks := [];
    var bytes := 0;
    var i := 0;
    while i < |available| && |chunks| < maxChunks && (chunks == [] || bytes + Bytes(available[i].text) <= maxBytes)
      invariant 0 <= i <= |available| && chunks == available[..i]
      invariant bytes == ChunkBytes(chunks) && |chunks| <= maxChunks
      invariant bytes <= maxBytes || i == 1
      invariant Small(available) ==> bytes <= maxBytes
    {
      ChunkBytesConcat(chunks, [available[i]]);
      OneChunk([available[i]]);
      assert Small(available) ==> Fits(available[i]);
      assert available[..i + 1] == chunks + [available[i]];
      chunks := chunks + [available[i]];
      bytes := bytes + Bytes(available[i].text);
      i := i + 1;
    }
  }

  /** Whether any of the chunks lies at or after `cursor`. */
  method AnyFrom(available: seq<Chunk>, from: nat, cursor: nat) returns (some: bool)
    requires Numbered(available, from) && from <= cursor <= from + |available|
    ensures some <==> cursor < from + |available|
  {
    some := false;
    var k := 0;
    while k < |available|
      invariant 0 <= k <= |available|
      invariant some <==> cursor < from + k
    {
      if available[k].cursor >= cursor {
        some := true;
      }
      k := k + 1;
    }
  }

  method ReadPage(ghost all: seq<Chunk>, floor: nat, next: nat, output: seq<Chunk>, cursor: nat, maxBytes: nat,
                  maxChunks: nat)
    returns (page: Page)
    requires Numbered(all, 0) && IsSuffix(all, floor, output) && next == |all|
    requires PageLimits(maxBytes, maxChunks) && cursor <= |all|
    ensures IsPage(all, floor, cursor, maxBytes, maxChunks, page)
    ensures Small(all) ==> ChunkBytes(page.chunks) <= maxBytes
  {
    var effective := if cursor < floor then floor else cursor;
    SuffixPositions(all, floor, output);
    var available := FromCursor(output, floor, effective);
    SuffixOfSuffix(all, floor, output, effective, available);
    SuffixPositions(all, effective, available);
    var chunks := FillPage(available, maxBytes, maxChunks);
    var nextCursor := if |chunks| > 0 then chunks[|chunks| - 1].cursor + 1 else effective;
    var hasMore := AnyFrom(available, effective, nextCursor);
    FilledPage(all, effective, chunks);
    page := Page(effective, floor, nextCursor, next, hasMore, cursor < floor, false, false, chunks);
  }

  lemma {:induction false} OneChunk(chunks: seq<Chunk>)
    ensures |chunks| == 1 ==> ChunkBytes(chunks) == Bytes(chunks[0].text)
  {
  }

  lemma {:induction false} FilledPage(all: seq<Chunk>, effective: nat, chunks: seq<Chunk>)
    requires effective <= |all| && chunks <= all[effective..]
    ensures chunks == all[effective..effective + |chunks|]
  {
  }

  lemma {:induction false} JoinedPush(all: seq<Chunk>, start: nat, chunk: Chunk)
    requires start <= |all|
    ensures Joined((all + [chunk])[start..], chunk.stream) == Joined(all[start..], chunk.stream) + chunk.text
  {
    assert (all + [chunk])[start..] == all[start..] + [chunk];
    JoinedConcat(all[start..], [chunk], chunk.stream);
    assert Joined([chunk], chunk.stream) == chunk.text + Joined([chunk][1..], chunk.stream);
  }

  // ----- A reader interleaved with a writer -----

  /** One read: the stream and floor at that moment, the cursor, and the page it got. */
  datatype Read = Read(all: seq<Chunk>, floor: nat, cursor: nat, maxBytes: nat, maxChunks: nat, page: Page)

  /** Between reads the stream only grows and the floor only rises; each read
      continues at the previous page's next cursor. */
  ghost predicate Reading(history: seq<Read>) {
    && (forall k | 0 <= k < |history| :: ReadOk(history[k]))
    && (forall k | 0 <= k < |history| - 1 :: Follows(history[k], history[k + 1]))
  }

  ghost predicate ReadOk(r: Read) {
    IsPage(r.all, r.floor, r.cursor, r.maxBytes, r.maxChunks, r.page)
  }

  ghost predicate Follows(a: Read, b: Read) {
    a.all <= b.all && a.floor <= b.floor && b.cursor == a.page.next
  }

  /** Position `x` was delivered by read `r`. */
  ghost predicate Delivered(r: Read, x: nat) {
    r.page.effective <= x < r.page.next
  }

  /** Position `x` was lost at read `r`, which says so on its page. */
  ghost predicate FlaggedLoss(r: Read, x: nat) {
    r.page.truncatedBefore && r.cursor <= x < r.page.floor
  }

  lemma {:induction false} ReadsAdvance(history: seq<Read>, j: nat, k: nat)
    requires Reading(history) && j <= k < |history|
    ensures history[j].all <= history[k].all
    ensures history[j].cursor <= history[k].cursor
    ensures j < k ==> history[j].page.next <= history[k].cursor
    decreases k - j
  {
    if j < k {
      ReadsAdvance(history, j, k - 1);
      assert Follows(history[k - 1], history[k]);
    }
  }

  /** No chunk is delivered twice: deliveries of later reads lie strictly later. */
  lemma {:induction false} NoChunkTwice(history: seq<Read>, j: nat, k: nat, x: nat)
    requires Reading(history) && j < k < |history|
    ensures !(Delivered(history[j], x) && Delivered(history[k], x))
    ensures !(Delivered(history[j], x) && FlaggedLoss(history[k], x))
    ensures !(FlaggedLoss(history[j], x) && Delivered(history[k], x))
  {
    ReadsAdvance(history, j, k);
  }

  lemma {:induction false} DeliveredChunk(r: Read, later: seq<Chunk>, x: nat)
    requires ReadOk(r) && r.all <= later
    requires r.cursor <= x < r.page.next
    ensures Delivered(r, x) || FlaggedLoss(r, x)
    ensures x < |later|
    ensures Delivered(r, x) ==> r.page.chunks[x - r.page.effective] == later[x]
  {
  }

  /** The read whose window covers a position. */
  lemma {:induction false} CoveringRead(history: seq<Read>, x: nat, k: nat) returns (j: nat)
    requires k < |history| && forall i | 0 <= i < k :: history[i].page.next == history[i + 1].cursor
    requires history[0].cursor <= x < history[k].page.next
    ensures j <= k && history[j].cursor <= x < history[j].page.next
    decreases k
  {
    j := k;
    if x < history[k].cursor {
      j := CoveringRead(history, x, k - 1);
    }
  }

  /** Every position from the first cursor up to the last is delivered by some read, as
      the chunk that was written there, or was lost and flagged on the page that skipped it. */
  lemma {:induction false} NothingSilentlySkipped(history: seq<Read>, x: nat) returns (k: nat)
    requires Reading(history) && history != []
    requires history[0].cursor <= x < history[|history| - 1].page.next
    ensures k < |history| && (Delivered(history[k], x) || FlaggedLoss(history[k], x))
    ensures x < |history[|history| - 1].all|
    ensures Delivered(history[k], x) ==>
      history[k].page.chunks[x - history[k].page.effective] == history[|history| - 1].all[x]
  {
    k := CoveringRead(history, x, |history| - 1);
    ReadsAdvance(history, k, |history| - 1);
    DeliveredChunk(history[k], history[|history| - 1].all, x);
  }
}
