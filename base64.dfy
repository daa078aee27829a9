/**
  Base 64 encoding with padding, section 4 of RFC 4648, and the browser's
  `btoa`, which applies it to a string whose characters are all in the range
  U+0000..U+00FF (one character per byte) and fails otherwise.
  The decoder is not used by the system; it is the reference the encoder is
  proved against (decoding an encoding gives back the bytes).
*/
module Base64 {
  import opened Wrappers

  type byte = b: int | 0 <= b < 256
  type sextet = i: int | 0 <= i < 64

  /** The alphabet of Table 1 of RFC 4648: A-Z, a-z, 0-9, '+', '/'. */
  function Char(i: sextet): (c: char)
    ensures c != '='
  {
    if i < 26 then ('A' as int + i) as char
    else if i < 52 then ('a' as int + (i - 26)) as char
    else if i < 62 then ('0' as int + (i - 52)) as char
    else if i == 62 then '+'
    else '/'
  }

  /** The value of an alphabet character; None for anything else (including the pad '='). */
  function Index(c: char): Option<sextet> {
    if 'A' <= c <= 'Z' then Some(c as int - 'A' as int)
    else if 'a' <= c <= 'z' then Some(c as int - 'a' as int + 26)
    else if '0' <= c <= '9' then Some(c as int - '0' as int + 52)
    else if c == '+' then Some(62)
    else if c == '/' then Some(63)
    else None
  }

  predicate InAlphabet(c: char) {
    Index(c).Some?
  }

  /** Three bytes (24 bits) become four 6-bit groups, most significant first. */
  function EncodeBlock(b0: byte, b1: byte, b2: byte): (r: string)
    ensures |r| == 4 && forall k :: 0 <= k < 4 ==> InAlphabet(r[k])
  {
    var i0, i1, i2, i3 := b0 / 4, b0 % 4 * 16 + b1 / 16, b1 % 16 * 4 + b2 / 64, b2 % 64;
    IndexOfChar(i0); IndexOfChar(i1); IndexOfChar(i2); IndexOfChar(i3);
    [Char(i0), Char(i1), Char(i2), Char(i3)]
  }

  /** Well-formed output: alphabet characters, with '=' only as padding in the last two places. */
  predicate Padded(r: string) {
    forall k :: 0 <= k < |r| ==> InAlphabet(r[k]) || (r[k] == '=' && k >= |r| - 2)
  }

  function Encode(b: seq<byte>): (r: string)
    ensures |r| == 4 * ((|b| + 2) / 3)
    ensures Padded(r)
    decreases |b|
  {
    if |b| == 0 then ""
    else if |b| == 1 then [Char(b[0] / 4), Char(b[0] % 4 * 16), '=', '=']
    else if |b| == 2 then [Char(b[0] / 4), Char(b[0] % 4 * 16 + b[1] / 16), Char(b[1] % 16 * 4), '=']
    else
      var head, tail := EncodeBlock(b[0], b[1], b[2]), Encode(b[3..]);
      PaddedJoin(head, tail);
      GroupCount(|b|);
      head + tail
  }

  /** A full group in front of padded output keeps it padded. */
  lemma PaddedJoin(head: string, tail: string)
    requires |head| == 4 && forall k :: 0 <= k < 4 ==> InAlphabet(head[k])
    requires Padded(tail)
    ensures Padded(head + tail)
  {
    assert forall k :: 4 <= k < |head + tail| ==> (head + tail)[k] == tail[k - 4];
  }

  /** One more group of three bytes adds four characters. */
  lemma GroupCount(n: nat)
    requires n >= 3
    ensures 4 + 4 * ((n - 3 + 2) / 3) == 4 * ((n + 2) / 3)
  {
    assert (n + 2) / 3 == (n - 3 + 2) / 3 + 1;
  }

  function DecodeBlock(c0: char, c1: char, c2: char, c3: char): Option<seq<byte>> {
    if Index(c0).Some? && Index(c1).Some? && Index(c2).Some? && Index(c3).Some? then
      var i0, i1, i2, i3: int := Index(c0).value, Index(c1).value, Index(c2).value, Index(c3).value;
      Some([i0 * 4 + i1 / 16, i1 % 16 * 16 + i2 / 4, i2 % 4 * 64 + i3])
    else None
  }

  /** The final group "xx==" (one byte) or "xxx=" (two bytes). */
  function DecodeFinal(c0: char, c1: char, c2: char): Option<seq<byte>> {
    if Index(c0).Some? && Index(c1).Some? then
      var i0, i1: int := Index(c0).value, Index(c1).value;
      if c2 == '=' then Some([i0 * 4 + i1 / 16])
      else if Index(c2).Some? then
        var i2: int := Index(c2).value;
        Some([i0 * 4 + i1 / 16, i1 % 16 * 16 + i2 / 4])
      else None
    else None
  }

  function Decode(s: string): Option<seq<byte>>
    decreases |s|
  {
    if |s| == 0 then Some([])
    else if |s| < 4 then None
    else if |s| == 4 && s[3] == '=' then DecodeFinal(s[0], s[1], s[2])
    else
      var head, tail := DecodeBlock(s[0], s[1], s[2], s[3]), Decode(s[4..]);
      if head.Some? && tail.Some? then Some(head.value + tail.value) else None
  }

  lemma IndexOfChar(i: sextet)
    ensures Index(Char(i)) == Some(i)
  {
  }

  lemma BlockRoundTrip(b0: byte, b1: byte, b2: byte)
    ensures var e := EncodeBlock(b0, b1, b2); DecodeBlock(e[0], e[1], e[2], e[3]) == Some([b0, b1, b2])
  {
    var i0, i1, i2, i3 := b0 / 4, b0 % 4 * 16 + b1 / 16, b1 % 16 * 4 + b2 / 64, b2 % 64;
    IndexOfChar(i0); IndexOfChar(i1); IndexOfChar(i2); IndexOfChar(i3);
    assert i1 / 16 == b0 % 4 && i1 % 16 == b1 / 16;
    assert i2 / 4 == b1 % 16 && i2 % 4 == b2 / 64;
  }

  lemma OneByteRoundTrip(b0: byte)
    ensures Decode(Encode([b0])) == Some([b0])
  {
    IndexOfChar(b0 / 4); IndexOfChar(b0 % 4 * 16);
  }

  lemma TwoByteRoundTrip(b0: byte, b1: byte)
    ensures Decode(Encode([b0, b1])) == Some([b0, b1])
  {
    var i0, i1, i2 := b0 / 4, b0 % 4 * 16 + b1 / 16, b1 % 16 * 4;
    IndexOfChar(i0); IndexOfChar(i1); IndexOfChar(i2);
    assert i1 / 16 == b0 % 4 && i1 % 16 == b1 / 16;
    assert i2 / 4 == b1 % 16;
    var s := Encode([b0, b1]);
    assert s == [Char(i0), Char(i1), Char(i2), '='];
    assert DecodeFinal(s[0], s[1], s[2]) == Some([i0 * 4 + i1 / 16, i1 % 16 * 16 + i2 / 4]);
  }

  /** Decoding an encoding gives back the bytes. */
  lemma {:induction false} DecodeEncode(b: seq<byte>)
    ensures Decode(Encode(b)) == Some(b)
    decreases |b|
  {
    if |b| == 1 {
      OneByteRoundTrip(b[0]);
      assert b == [b[0]];
    } else if |b| == 2 {
      TwoByteRoundTrip(b[0], b[1]);
      assert b == [b[0], b[1]];
    } else if |b| >= 3 {
      DecodeEncode(b[3..]);
      BlockStep(b);
      SplitJoin(b);
    }
  }

  /** A full group followed by more groups decodes to the group's bytes followed by the rest. */
  lemma DecodeConcat(head: string, tail: string, hb: seq<byte>, tb: seq<byte>)
    requires |head| == 4 && head[3] != '='
    requires DecodeBlock(head[0], head[1], head[2], head[3]) == Some(hb)
    requires Decode(tail) == Some(tb)
    ensures Decode(head + tail) == Some(hb + tb)
  {
    var s := head + tail;
    assert s[..4] == head && s[4..] == tail;
  }

  lemma EncodeSplit(b: seq<byte>)
    requires |b| >= 3
    ensures Encode(b) == EncodeBlock(b[0], b[1], b[2]) + Encode(b[3..])
  {
  }

  lemma BlockStep(b: seq<byte>)
    requires |b| >= 3
    requires Decode(Encode(b[3..])) == Some(b[3..])
    ensures Decode(Encode(b)) == Some([b[0], b[1], b[2]] + b[3..])
  {
    var head, tail := EncodeBlock(b[0], b[1], b[2]), Encode(b[3..]);
    EncodeSplit(b);
    BlockRoundTrip(b[0], b[1], b[2]);
    DecodeConcat(head, tail, [b[0], b[1], b[2]], b[3..]);
  }

  lemma SplitJoin(b: seq<byte>)
    requires |b| >= 3
    ensures [b[0], b[1], b[2]] + b[3..] == b
  {
  }

  /** One character per byte, whose code is the byte (`String.fromCharCode`). */
  function Latin1(b: seq<byte>): (s: string)
    ensures |s| == |b| && forall k :: 0 <= k < |b| ==> s[k] as int == b[k]
  {
    seq(|b|, k requires 0 <= k < |b| => b[k] as char)
  }

  /** `btoa(s)`: fails (InvalidCharacterError) on a character above U+00FF. */
  function Btoa(s: string): (r: Option<string>)
    ensures r.Some? <==> forall k :: 0 <= k < |s| ==> s[k] as int < 256
  {
    if forall k :: 0 <= k < |s| ==> s[k] as int < 256 then
      Some(Encode(seq(|s|, k requires 0 <= k < |s| => s[k] as int)))
    else None
  }

  /** `btoa` of a byte string succeeds and is the encoding of those bytes. */
  lemma BtoaLatin1(b: seq<byte>)
    ensures Btoa(Latin1(b)) == Some(Encode(b))
  {
    var s := Latin1(b);
    assert seq(|s|, k requires 0 <= k < |s| => s[k] as int) == b;
  }
}
