/**
  Audio capture encoding shared by both recorder screens: floating-point
  samples become 16-bit signed PCM (stored into an `Int16Array`, whose
  element conversion is ToInt16, section 7.1.8 of ECMA-262), the Int16Array's
  buffer is read as little-endian bytes, and those bytes become a base 64
  string through one character per byte and `btoa`.
  Samples are reals: a Float32 sample times 32767 or 32768 is exact in a
  double, so no rounding happens before the truncation.
*/
module Pcm {
  import opened Wrappers
  import opened Base64

  const Int16Min: int := -32768
  const Int16Max: int := 32767

  /** `Math.max(-1, Math.min(1, x))` */
  function Clamp(x: real): (r: real)
    ensures -1.0 <= r <= 1.0
    ensures -1.0 <= x <= 1.0 ==> r == x
    ensures x > 1.0 ==> r == 1.0
    ensures x < -1.0 ==> r == -1.0
  {
    if x < -1.0 then -1.0 else if x > 1.0 then 1.0 else x
  }

  /** `s < 0 ? s * 0x8000 : s * 0x7FFF`: the asymmetric scale of two's complement. */
  function Scale(s: real): (r: real)
    ensures s < 0.0 ==> r <= s
    ensures s >= 0.0 ==> r >= s
    ensures -1.0 <= s <= 1.0 ==> -32768.0 <= r <= 32767.0
  {
    if s < 0.0 then s * 32768.0 else s * 32767.0
  }

  /** Truncation toward zero, as ToIntegerOrInfinity does for a finite number. */
  function Truncate(x: real): (n: int)
    ensures n as real <= x < n as real + 1.0 || n as real - 1.0 < x <= n as real
    ensures x >= 0.0 ==> 0 <= n && n as real <= x
    ensures x < 0.0 ==> n <= 0 && x <= n as real
  {
    if x < 0.0 then -((-x).Floor) else x.Floor
  }

  /** ToInt16: truncate, reduce modulo 2^16, and read the result as a signed 16-bit value. */
  function ToInt16(x: real): (n: int)
    ensures Int16Min <= n <= Int16Max
    ensures (n - Truncate(x)) % 65536 == 0
    ensures Int16Min <= Truncate(x) <= Int16Max ==> n == Truncate(x)
  {
    var m := Truncate(x) % 65536;
    if m >= 32768 then m - 65536 else m
  }

  /** The value `pcmInt16[i]` receives for the sample `x`. */
  function ConvertSample(x: real): (n: int)
    ensures n == Truncate(Scale(Clamp(x)))
    ensures Int16Min <= n <= Int16Max
  {
    ScaledSampleFits(x);
    ToInt16(Scale(Clamp(x)))
  }

  lemma TruncateMonotone(x: real, y: real)
    requires x <= y
    ensures Truncate(x) <= Truncate(y)
  {
    if x < 0.0 && y < 0.0 {
      assert (-y).Floor <= (-x).Floor;
    }
  }

  /** The clamped, scaled sample is already in range, so the Int16Array store never wraps. */
  lemma ScaledSampleFits(x: real)
    ensures ToInt16(Scale(Clamp(x))) == Truncate(Scale(Clamp(x)))
    ensures Int16Min <= Truncate(Scale(Clamp(x))) <= Int16Max
  {
    var s := Scale(Clamp(x));
    assert -32768.0 <= s <= 32767.0;
    TruncateMonotone(-32768.0, s);
    TruncateMonotone(s, 32767.0);
    assert Truncate(-32768.0) == -32768 && Truncate(32767.0) == 32767;
    var t := Truncate(s);
    if t < 0 {
      assert (t + 65536) % 65536 == t + 65536;
      assert t % 65536 == t + 65536;
    } else {
      assert t % 65536 == t;
    }
  }

  /** Full scale maps to the extremes of the 16-bit range, silence to zero; inputs beyond full scale saturate. */
  lemma ConvertSampleEndpoints(x: real)
    ensures ConvertSample(1.0) == Int16Max
    ensures ConvertSample(-1.0) == Int16Min
    ensures ConvertSample(0.0) == 0
    ensures x >= 1.0 ==> ConvertSample(x) == Int16Max
    ensures x <= -1.0 ==> ConvertSample(x) == Int16Min
  {
  }

  /** Negative samples give non-positive values and non-negative samples non-negative ones. */
  lemma ConvertSampleSign(x: real)
    ensures x < 0.0 ==> ConvertSample(x) <= 0
    ensures x >= 0.0 ==> ConvertSample(x) >= 0
  {
  }

  /** The conversion is monotone: a louder sample never gives a smaller value. */
  lemma ConvertSampleMonotone(x: real, y: real)
    requires x <= y
    ensures ConvertSample(x) <= ConvertSample(y)
  {
    var cx, cy := Clamp(x), Clamp(y);
    assert cx <= cy;
    if cx < 0.0 && cy >= 0.0 {
      ConvertSampleSign(cx);
      ConvertSampleSign(cy);
      assert Clamp(cx) == cx && Clamp(cy) == cy;
    } else {
      assert Scale(cx) <= Scale(cy);
      TruncateMonotone(Scale(cx), Scale(cy));
    }
  }

  /** The whole converted buffer, element by element. */
  function ConvertAll(samples: seq<real>): (r: seq<int>)
    ensures |r| == |samples|
    ensures forall k :: 0 <= k < |r| ==> r[k] == ConvertSample(samples[k])
  {
    seq(|samples|, k requires 0 <= k < |samples| => ConvertSample(samples[k]))
  }

  /**
    `convertFloat32ToInt16`: a fresh Int16Array of the same length, filled in
    a loop with the converted samples.
  */
  method ConvertFloat32ToInt16(input: array<real>) returns (output: array<int>)
    ensures fresh(output)
    ensures output[..] == ConvertAll(input[..])
  {
    output := new int[input.Length];
    var i := 0;
    while i < input.Length
      invariant 0 <= i <= input.Length
      invariant forall k :: 0 <= k < i ==> output[k] == ConvertSample(input[k])
    {
      var s := Clamp(input[i]);
      output[i] := ToInt16(if s < 0.0 then s * 32768.0 else s * 32767.0);
      i := i + 1;
    }
  }

  /** The bytes of an Int16Array's buffer: each element as two bytes, low byte first. */
  function Int16Bytes(samples: seq<int>): (b: seq<byte>)
    ensures |b| == 2 * |samples|
  {
    if samples == [] then []
    else
      var u := samples[0] % 65536;
      [u % 256, u / 256] + Int16Bytes(samples[1..])
  }

  /** Reading the buffer back as signed 16-bit little-endian values (the inverse of Int16Bytes). */
  function FromInt16Bytes(b: seq<byte>): seq<int>
    requires |b| % 2 == 0
  {
    if b == [] then []
    else
      var u: int := b[0] as int + 256 * (b[1] as int);
      [if u >= 32768 then u - 65536 else u] + FromInt16Bytes(b[2..])
  }

  predicate InInt16Range(samples: seq<int>) {
    forall k :: 0 <= k < |samples| ==> Int16Min <= samples[k] <= Int16Max
  }

  /** Every converted value fits in 16 bits without wrapping. */
  lemma ConvertAllInRange(samples: seq<real>)
    ensures InInt16Range(ConvertAll(samples))
  {
    forall k | 0 <= k < |samples| ensures Int16Min <= ConvertAll(samples)[k] <= Int16Max {
    }
  }

  /** The bytes of a converted block come in pairs and read back as the converted samples. */
  lemma ConvertedBytesRoundTrip(samples: seq<real>)
    ensures |Int16Bytes(ConvertAll(samples))| % 2 == 0
    ensures FromInt16Bytes(Int16Bytes(ConvertAll(samples))) == ConvertAll(samples)
  {
    var pcm := ConvertAll(samples);
    ConvertAllInRange(samples);
    Int16BytesRoundTrip(pcm);
  }

  /** The byte view loses nothing: reading the bytes back gives the samples. */
  lemma {:induction false} Int16BytesRoundTrip(samples: seq<int>)
    requires InInt16Range(samples)
    ensures FromInt16Bytes(Int16Bytes(samples)) == samples
  {
    if samples != [] {
      var b := Int16Bytes(samples);
      assert b[2..] == Int16Bytes(samples[1..]);
      Int16BytesRoundTrip(samples[1..]);
      var v := samples[0];
      var u := v % 65536;
      assert u % 256 + 256 * (u / 256) == u;
      if v < 0 {
        assert u == v + 65536;
      } else {
        assert u == v;
      }
    }
  }

  /**
    `arrayBufferToBase64`: one character per byte appended in a loop, then
    `btoa` of that string, which is the RFC 4648 encoding of the bytes.
  */
  method ArrayBufferToBase64(bytes: seq<byte>) returns (r: string)
    ensures r == Encode(bytes)
    ensures |r| == 4 * ((|bytes| + 2) / 3)
  {
    var binary := "";
    var i := 0;
    while i < |bytes|
      invariant 0 <= i <= |bytes|
      invariant |binary| == i
      invariant forall k :: 0 <= k < i ==> binary[k] as int == bytes[k]
    {
      binary := binary + [bytes[i] as char];
      i := i + 1;
    }
    assert binary == Latin1(bytes);
    BtoaLatin1(bytes);
    r := Btoa(binary).value;
  }
}
