/** Text as Unicode scalar values, and its UTF-8 form (RFC 3629, section 3). */
module Utf8 {
  type Text = string

  type Byte = b: int | 0 <= b < 256

  const Replacement: char := '\U{FFFD}'

  function Size(c: char): (n: nat)
    ensures 1 <= n <= 4
  {
    SizeOf(c as int)
  }

  function SizeOf(code: int): (n: nat)
    ensures 1 <= n <= 4
  {
    if code < 0x80 then 1 else if code < 0x800 then 2 else if code < 0x10000 then 3 else 4
  }

  /** The byte length of a text. */
  function Bytes(t: Text): nat {
    if t == [] then 0 else Size(t[0]) + Bytes(t[1..])
  }

  lemma {:induction false} BytesConcat(s: Text, t: Text)
    ensures Bytes(s + t) == Bytes(s) + Bytes(t)
  {
    if s == [] {
      assert s + t == t;
    } else {
      assert (s + t)[1..] == s[1..] + t;
      BytesConcat(s[1..], t);
    }
  }

  function Encode(ch: char): (r: seq<Byte>)
    ensures |r| == Size(ch)
  {
    var c := ch as int;
    if c < 0x80 then [c]
    else if c < 0x800 then [0xC0 + c / 64, 0x80 + c % 64]
    else if c < 0x10000 then [0xE0 + c / 64 / 64, 0x80 + c / 64 % 64, 0x80 + c % 64]
    else [0xF0 + c / 64 / 64 / 64, 0x80 + c / 64 / 64 % 64, 0x80 + c / 64 % 64, 0x80 + c % 64]
  }

  function EncodeText(t: Text): seq<Byte> {
    if t == [] then [] else Encode(t[0]) + EncodeText(t[1..])
  }

  lemma {:induction false} EncodedLength(t: Text)
    ensures |EncodeText(t)| == Bytes(t)
  {
    if t != [] {
      EncodedLength(t[1..]);
    }
  }

  predicate IsContinuation(b: Byte) {
    0x80 <= b < 0xC0
  }

  function Two(a: int, b: int): int {
    (a - 0xC0) * 64 + (b - 0x80)
  }

  function Three(a: int, b: int, c: int): int {
    ((a - 0xE0) * 64 + (b - 0x80)) * 64 + (c - 0x80)
  }

  function Four(a: int, b: int, c: int, d: int): int {
    (((a - 0xF0) * 64 + (b - 0x80)) * 64 + (c - 0x80)) * 64 + (d - 0x80)
  }

  predicate StartsTwo(bs: seq<Byte>) {
    |bs| >= 2 && 0xC0 <= bs[0] < 0xE0 && IsContinuation(bs[1]) && 0x80 <= Two(bs[0], bs[1])
  }

  predicate StartsThree(bs: seq<Byte>) {
    && |bs| >= 3 && 0xE0 <= bs[0] < 0xF0 && IsContinuation(bs[1]) && IsContinuation(bs[2])
    && 0x800 <= Three(bs[0], bs[1], bs[2]) && !(0xD800 <= Three(bs[0], bs[1], bs[2]) < 0xE000)
  }

  predicate StartsFour(bs: seq<Byte>) {
    && |bs| >= 4 && 0xF0 <= bs[0] && IsContinuation(bs[1]) && IsContinuation(bs[2]) && IsContinuation(bs[3])
    && 0x10000 <= Four(bs[0], bs[1], bs[2], bs[3]) < 0x110000
  }

  /** A lenient decoder: a byte that starts no well-formed sequence becomes one
      replacement character. */
  function Decode(bs: seq<Byte>): Text {
    if bs == [] then []
    else if bs[0] < 0x80 then [bs[0] as char] + Decode(bs[1..])
    else if StartsTwo(bs) then [Two(bs[0], bs[1]) as char] + Decode(bs[2..])
    else if StartsThree(bs) then [Three(bs[0], bs[1], bs[2]) as char] + Decode(bs[3..])
    else if StartsFour(bs) then [Four(bs[0], bs[1], bs[2], bs[3]) as char] + Decode(bs[4..])
    else [Replacement] + Decode(bs[1..])
  }

  lemma {:induction false} Digits(c: nat)
    requires c < 0x110000
    ensures 0x80 <= c < 0x800 ==> Two(0xC0 + c / 64, 0x80 + c % 64) == c
    ensures 0x800 <= c < 0x10000 ==> Three(0xE0 + c / 64 / 64, 0x80 + c / 64 % 64, 0x80 + c % 64) == c
    ensures 0x10000 <= c ==>
      Four(0xF0 + c / 64 / 64 / 64, 0x80 + c / 64 / 64 % 64, 0x80 + c / 64 % 64, 0x80 + c % 64) == c
  {
  }

  lemma {:induction false} DecodesOne(ch: char, rest: seq<Byte>)
    ensures Decode(Encode(ch) + rest) == [ch] + Decode(rest)
  {
    var c := ch as int;
    var bs := Encode(ch) + rest;
    Digits(c);
    assert bs[SizeOf(c)..] == rest;
    if c < 0x80 {
    } else if c < 0x800 {
      assert StartsTwo(bs);
    } else if c < 0x10000 {
      assert !StartsTwo(bs) && StartsThree(bs);
    } else {
      assert !StartsTwo(bs) && !StartsThree(bs) && StartsFour(bs);
    }
  }

  /** Decoding an encoded text gives the text back. */
  lemma {:induction false} RoundTrip(t: Text)
    ensures Decode(EncodeText(t)) == t
  {
    if t != [] {
      DecodesOne(t[0], EncodeText(t[1..]));
      RoundTrip(t[1..]);
    }
  }

  function Replacements(j: nat): (r: Text)
    ensures |r| == j
  {
    if j == 0 then [] else [Replacement] + Replacements(j - 1)
  }

  lemma {:induction false} BytesOfReplacements(j: nat)
    ensures Bytes(Replacements(j)) == 3 * j
  {
    if j > 0 {
      BytesOfReplacements(j - 1);
    }
  }

  lemma {:induction false} StrayContinuations(bs: seq<Byte>, rest: seq<Byte>)
    requires forall i | 0 <= i < |bs| :: IsContinuation(bs[i])
    ensures Decode(bs + rest) == Replacements(|bs|) + Decode(rest)
  {
    if bs == [] {
      assert bs + rest == rest;
    } else {
      assert (bs + rest)[1..] == bs[1..] + rest;
      StrayContinuations(bs[1..], rest);
    }
  }

  /** Where a byte cut falls in a text: `stray` continuation bytes of the character
      it splits, then the characters from `from` on. */
  datatype Cut = Cut(stray: nat, from: nat)

  function CutAt(t: Text, k: nat): (c: Cut)
    requires k <= Bytes(t)
    ensures c.stray <= 3 && c.from <= |t|
    ensures c.stray + Bytes(t[c.from..]) == Bytes(t) - k
    ensures k > 0 ==> c.from > 0
  {
    if k == 0 then
      assert t[0..] == t;
      Cut(0, 0)
    else if k < Size(t[0]) then Cut(Size(t[0]) - k, 1)
    else
      var c := CutAt(t[1..], k - Size(t[0]));
      assert t[1..][c.from..] == t[c.from + 1..];
      Cut(c.stray, c.from + 1)
  }

  /** Decoding the bytes from any cut on gives one replacement per stray byte and
      then the rest of the text unharmed. */
  lemma {:induction false} DecodeFromCut(t: Text, k: nat)
    requires k <= Bytes(t) == |EncodeText(t)|
    ensures Decode(EncodeText(t)[k..]) == Replacements(CutAt(t, k).stray) + t[CutAt(t, k).from..]
  {
    if k == 0 {
      DecodeFromStart(t);
    } else if k < Size(t[0]) {
      DecodeFromWithin(t, k);
    } else {
      var rest, j := t[1..], k - Size(t[0]);
      CutLater(t, k);
      DecodeFromCut(rest, j);
      assert EncodeText(t)[k..] == EncodeText(rest)[j..];
    }
  }

  lemma {:induction false} DecodeFromStart(t: Text)
    ensures Decode(EncodeText(t)[0..]) == Replacements(0) + t[0..]
  {
    RoundTrip(t);
    assert EncodeText(t)[0..] == EncodeText(t);
  }

  /** A cut behind the first character is a cut of the rest. */
  lemma {:induction false} CutLater(t: Text, k: nat)
    requires t != [] && Size(t[0]) <= k <= Bytes(t)
    ensures |EncodeText(t[1..])| == Bytes(t[1..])
    ensures EncodeText(t)[k..] == EncodeText(t[1..])[k - Size(t[0])..]
    ensures CutAt(t, k).stray == CutAt(t[1..], k - Size(t[0])).stray
    ensures t[CutAt(t, k).from..] == t[1..][CutAt(t[1..], k - Size(t[0])).from..]
  {
    EncodedLength(t[1..]);
    DropAcross(Encode(t[0]), EncodeText(t[1..]), k);
    DropAcross([t[0]], t[1..], CutAt(t, k).from);
    assert [t[0]] + t[1..] == t;
  }

  lemma {:induction false} RestOfCharacter(c: char, k: nat)
    requires 0 < k < Size(c)
    ensures forall i | 0 <= i < |Encode(c)[k..]| :: IsContinuation(Encode(c)[k..][i])
  {
  }

  lemma {:induction false} DropAcross<T>(first: seq<T>, rest: seq<T>, k: nat)
    requires |first| <= k <= |first| + |rest|
    ensures (first + rest)[k..] == rest[k - |first|..]
  {
  }

  lemma {:induction false} DropWithin(first: seq<Byte>, rest: seq<Byte>, k: nat)
    requires k <= |first|
    ensures (first + rest)[k..] == first[k..] + rest
  {
  }

  lemma {:induction false} DecodeFromWithin(t: Text, k: nat)
    requires t != [] && 0 < k < Size(t[0])
    ensures Decode(EncodeText(t)[k..]) == Replacements(Size(t[0]) - k) + t[1..]
  {
    var rest := EncodeText(t[1..]);
    DropWithin(Encode(t[0]), rest, k);
    RestOfCharacter(t[0], k);
    StrayContinuations(Encode(t[0])[k..], rest);
    RoundTrip(t[1..]);
  }

  /** A text from its last `n` bytes on: a split character leaves one replacement
      character for each of its bytes. */
  function TailBytes(t: Text, n: nat): Text {
    if n > Bytes(t) then t
    else
      var c := CutAt(t, Bytes(t) - n);
      Replacements(c.stray) + t[c.from..]
  }

  lemma {:induction false} TailSize(t: Text, n: nat)
    requires n <= Bytes(t)
    ensures Bytes(TailBytes(t, n)) == n + 2 * CutAt(t, Bytes(t) - n).stray
  {
    var c := CutAt(t, Bytes(t) - n);
    BytesConcat(Replacements(c.stray), t[c.from..]);
    BytesOfReplacements(c.stray);
  }

  lemma {:induction false} WholeTail(t: Text)
    ensures Replacements(CutAt(t, 0).stray) + t[CutAt(t, 0).from..] == t
  {
  }

  /** Encoding, keeping the last `n` bytes, and decoding again. */
  method DecodedTail(t: Text, n: nat) returns (r: Text)
    ensures r == TailBytes(t, n)
  {
    var buffer := EncodeText(t);
    EncodedLength(t);
    var start := if n > |buffer| then 0 else |buffer| - n;
    DecodeFromCut(t, start);
    WholeTail(t);
    r := Decode(buffer[start..]);
  }
}
