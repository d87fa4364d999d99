/** The encoder at the end of the audio renderer (`dump` in music.cc): one
    forward pass over the logical length of the buffer; each sample is
    clamped to [-1, 1], scaled by 32767, converted to a 16-bit signed
    integer (the conversion truncates toward zero) and emitted as two bytes,
    low byte first. */
module Pcm {
  import opened SampleBuffer

  type byte = b: int | 0 <= b < 256

  /** Full scale of the 16-bit output. */
  const FullScale: int := 32767

  /** The sample limited to the range [-1, 1]. */
  function Clamp(x: real): (c: real)
    ensures -1.0 <= c <= 1.0
    ensures -1.0 <= x <= 1.0 ==> c == x
    ensures x > 1.0 ==> c == 1.0
    ensures x < -1.0 ==> c == -1.0
  {
    var m := if 1.0 < x then 1.0 else x;
    if m < -1.0 then -1.0 else m
  }

  /** Conversion of a float to an integer type: the fraction is dropped,
      rounding toward zero (not toward minus infinity, as `Floor` does). */
  function TruncateTowardZero(y: real): (v: int)
    ensures y >= 0.0 ==> 0 <= v && v as real <= y < v as real + 1.0
    ensures y < 0.0 ==> v <= 0 && v as real - 1.0 < y <= v as real
  {
    if y >= 0.0 then y.Floor else -((-y).Floor)
  }

  /** The 16-bit value written for one sample. It never reaches -32768, so
      the output is symmetric, and it is within one step of the scaled
      clamped sample, on the zero side. */
  function Quantize(x: real): (v: int)
    ensures -FullScale <= v <= FullScale
    ensures x >= 1.0 ==> v == FullScale
    ensures x <= -1.0 ==> v == -FullScale
    ensures x >= 0.0 ==> v >= 0 && v as real <= Clamp(x) * 32767.0 < v as real + 1.0
    ensures x < 0.0 ==> v <= 0 && v as real - 1.0 < Clamp(x) * 32767.0 <= v as real
  {
    TruncateTowardZero(Clamp(x) * 32767.0)
  }

  /** The low byte of the 16-bit value in two's complement: a value that
      fits in a byte, signed or unsigned, is its own byte. */
  function Low(v: int): (b: byte)
    ensures 0 <= v < 256 ==> b as int == v
    ensures -128 <= v < 0 ==> b as int == v + 256
  {
    v % 256
  }

  /** The high byte of the 16-bit value in two's complement: an arithmetic
      shift right by eight bits, narrowed to a byte. */
  function High(v: int): (b: byte)
    ensures -32768 <= v < 32768 ==> (b >= 128 <==> v < 0)
    ensures -32768 <= v < 32768 ==> Low(v) as int + 256 * b as int == if v < 0 then v + 65536 else v
  {
    (v / 256) % 256
  }

  /** How a reader of 16-bit little-endian two's complement data rebuilds
      a sample from its two bytes. */
  function Decode16(lo: byte, hi: byte): (v: int)
    ensures -32768 <= v < 32768
  {
    var u := lo + 256 * hi;
    if u >= 32768 then u - 65536 else u
  }

  /** Low byte then high byte reconstructs every 16-bit value. */
  lemma PairRoundTrip(v: int)
    requires -32768 <= v < 32768
    ensures Decode16(Low(v), High(v)) == v
    ensures v >= 0 ==> Low(v) + 256 * High(v) == v
    ensures v < 0 ==> Low(v) + 256 * High(v) == v + 65536
  {
    if v >= 0 {
      assert v / 256 < 128;
    } else {
      assert -128 <= v / 256 < 0;
      assert High(v) == v / 256 + 256;
    }
  }

  /** The byte stream `dump` emits for the samples `xs`. */
  function Encode(xs: seq<real>): (bytes: seq<byte>)
    ensures |bytes| == 2 * |xs|
  {
    if xs == [] then []
    else
      var n := |xs| - 1;
      var v := Quantize(xs[n]);
      Encode(xs[..n]) + [Low(v), High(v)]
  }

  /** Two bytes per sample, sample k at bytes 2k (low) and 2k + 1 (high). */
  lemma {:induction false} EncodeLayout(xs: seq<real>)
    ensures |Encode(xs)| == 2 * |xs|
    ensures forall k :: 0 <= k < |xs| ==>
              Encode(xs)[2 * k] == Low(Quantize(xs[k])) && Encode(xs)[2 * k + 1] == High(Quantize(xs[k]))
  {
    if xs != [] {
      var n := |xs| - 1;
      EncodeLayout(xs[..n]);
      assert Encode(xs) == Encode(xs[..n]) + [Low(Quantize(xs[n])), High(Quantize(xs[n]))];
      forall k | 0 <= k < |xs|
        ensures Encode(xs)[2 * k] == Low(Quantize(xs[k])) && Encode(xs)[2 * k + 1] == High(Quantize(xs[k]))
      {
        if k < n {
          assert xs[..n][k] == xs[k];
        }
      }
    }
  }

  /** A reader of the stream gets back, for every sample, exactly the
      16-bit value `dump` computed for it. */
  lemma EncodeDecodes(xs: seq<real>)
    ensures |Encode(xs)| == 2 * |xs|
    ensures forall k :: 0 <= k < |xs| ==> Decode16(Encode(xs)[2 * k], Encode(xs)[2 * k + 1]) == Quantize(xs[k])
  {
    EncodeLayout(xs);
    forall k | 0 <= k < |xs|
      ensures Decode16(Encode(xs)[2 * k], Encode(xs)[2 * k + 1]) == Quantize(xs[k])
    {
      PairRoundTrip(Quantize(xs[k]));
    }
  }

  /** One more sample appends its two bytes. */
  lemma EncodeSnoc(xs: seq<real>, x: real)
    ensures Encode(xs + [x]) == Encode(xs) + [Low(Quantize(x)), High(Quantize(x))]
  {
    assert (xs + [x])[..|xs|] == xs;
  }

  /** The samples 0.5, -1, 0, 1 give FF 3F, 01 80, 00 00, FF 7F. */
  lemma EncodeExample()
    ensures Encode([0.5, -1.0, 0.0, 1.0]) == [0xFF, 0x3F, 0x01, 0x80, 0x00, 0x00, 0xFF, 0x7F]
  {
    assert Quantize(0.5) == 16383;
    assert Quantize(-1.0) == -32767 && Quantize(0.0) == 0 && Quantize(1.0) == 32767;
    assert Low(16383) == 0xFF && High(16383) == 0x3F;
    assert Low(-32767) == 0x01 && High(-32767) == 0x80;
    assert Low(32767) == 0xFF && High(32767) == 0x7F;
    EncodeSnoc([], 0.5);
    assert [] + [0.5] == [0.5];
    EncodeSnoc([0.5], -1.0);
    assert [0.5] + [-1.0] == [0.5, -1.0];
    EncodeSnoc([0.5, -1.0], 0.0);
    assert [0.5, -1.0] + [0.0] == [0.5, -1.0, 0.0];
    EncodeSnoc([0.5, -1.0, 0.0], 1.0);
    assert [0.5, -1.0, 0.0] + [1.0] == [0.5, -1.0, 0.0, 1.0];
  }

  /** `dump`: encodes the logical contents of the buffer. */
  method Dump(buf: Samples) returns (bytes: seq<byte>)
    requires buf.Valid()
    ensures bytes == Encode(Contents(buf.Model()))
  {
    ghost var xs := Contents(buf.Model());
    bytes := [];
    var i := 0;
    while i < buf.Length()
      invariant 0 <= i <= buf.size
      invariant bytes == Encode(xs[..i])
    {
      var v := Quantize(buf.Get(i));
      assert xs[..i + 1][..i] == xs[..i];
      bytes := bytes + [Low(v), High(v)];
      i := i + 1;
    }
    assert xs[..i] == xs;
  }
}
