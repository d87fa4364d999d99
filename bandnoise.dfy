/** The integer and bit-level parts of the band-noise generator (`BandNoise`
    in music.cc): the xorshift random source and the float bit pattern it
    builds, the loop that fills the table with random values, the mapping of
    the band edges in Hz to FFT bins, and the band-pass mask applied between
    the two transforms (fold to a frequency, then a linear ramp across the
    band). The transforms themselves are left out. */
module BandNoise {

  /** Length of a noise table and of its transform. */
  const TableLength: nat := 8192
  /** Index of the Nyquist bin. */
  const Nyquist: nat := 4096
  const SampleRate: nat := 48000

  /** Seeds of the two tables. */
  const HatSeed: bv64 := 0x696969
  const TambourineSeed: bv64 := 0x420420

  /** The three xor-shift steps of one update of the generator state; the
      third shifts to the left. */
  function ShiftStep1(s: bv64): bv64 { s ^ (s >> 12) }
  function ShiftStep2(s: bv64): bv64 { s ^ (s << 25) }
  function ShiftStep3(s: bv64): bv64 { s ^ (s << 27) }

  /** One update of the generator state. It maps only 0 to 0, so a nonzero
      state never collapses to the all-zero fixed point. */
  function XorShift(state: bv64): (next: bv64)
    ensures next == 0 <==> state == 0
  {
    ShiftStep3(ShiftStep2(ShiftStep1(state)))
  }

  /** Each step maps only 0 to 0 (it is invertible). */
  lemma ShiftStep1Nonzero(s: bv64)
    requires s != 0
    ensures ShiftStep1(s) != 0
  {
  }

  lemma ShiftStep2Nonzero(s: bv64)
    requires s != 0
    ensures ShiftStep2(s) != 0
  {
  }

  lemma ShiftStep3Nonzero(s: bv64)
    requires s != 0
    ensures ShiftStep3(s) != 0
  {
  }

  /** The output scrambling: the state times the odd constant
      0x2545F4914F6CDD1D, wrapping modulo 2^64. */
  function Scramble(state: bv64): (m: bv64)
    ensures m & 1 == state & 1
    ensures m == 0 <==> state == 0
  {
    state * 0x2545F4914F6CDD1D
  }

  /** The 32-bit pattern built from a scrambled word: 0x3F800000, the bits
      of the float 1.0 (sign 0, exponent 127), or-ed with the word masked by
      0x007FFFF. That mask has 19 bits set, not the 23 of a full mantissa. */
  function Pattern(m: bv64): (bits: bv32)
    ensures bits >> 31 == 0
    ensures Exponent(bits) == 127
    ensures Mantissa(bits) == LowBits(m) as bv32
    ensures Mantissa(bits) >> 19 == 0
  {
    var low := (m & 0x007FFFF) as bv32;
    assert low == LowBits(m) as bv32 && low >> 19 == 0;
    0x3F800000 | low
  }

  /** The stored exponent field of a single-precision bit pattern. */
  function Exponent(bits: bv32): bv32
  {
    (bits >> 23) & 0xFF
  }

  /** The fraction field of a single-precision bit pattern. */
  function Mantissa(bits: bv32): bv32
  {
    bits & 0x7FFFFF
  }

  /** The 19 bits of a scrambled word the mask keeps. */
  function LowBits(m: bv64): bv19
  {
    (m & 0x007FFFF) as bv19
  }

  /** The float a scrambled word encodes, 1 + fraction / 2^23 by the
      layout above: within [1, 1.0625), a sixteenth of the interval [1, 2)
      a full fraction field would cover. */
  function Value(m: bv64): (x: real)
    ensures 1.0 <= x < 1.0625
  {
    1.0 + (LowBits(m) as int) as real / 8388608.0
  }

  /** The value `rnd` returns once it has moved the generator to `state`. */
  function Rnd(state: bv64): (x: real)
    ensures 1.0 <= x < 1.0625
  {
    Value(Scramble(state))
  }

  /** The generator state after n draws from `seed`: from a nonzero seed
      every later state is nonzero. */
  function StateAfter(seed: bv64, n: nat): (state: bv64)
    ensures seed != 0 ==> state != 0
  {
    if n == 0 then seed else XorShift(StateAfter(seed, n - 1))
  }

  /** Both seeds of the source are nonzero, so neither generator ever
      reaches the all-zero state. */
  lemma SeedsNeverZero(n: nat)
    ensures StateAfter(HatSeed, n) != 0 && StateAfter(TambourineSeed, n) != 0
  {
  }

  /** The value the filling loop stores at index k: draw k + 1, mapped by
      x * 2 - 1. The bit-cast float lies in [1, 2) whatever the mask, and in
      [1, 1.0625) with the 19 kept bits, so the stored value lies in
      [1, 1.125). A symmetric range [-1, 1) would need the float minus 1
      before the map. */
  function Draw(seed: bv64, k: nat): (x: real)
    ensures 1.0 <= x < 1.125
  {
    Rnd(StateAfter(seed, k + 1)) * 2.0 - 1.0
  }

  /** The filling loop: entry i of the 8192 gets the (i + 1)-th draw mapped
      by x * 2 - 1, with the generator state threaded through the draws. */
  method FillNoise(seed: bv64) returns (ar: array<real>, state: bv64)
    ensures ar.Length == TableLength
    ensures forall k :: 0 <= k < TableLength ==> ar[k] == Draw(seed, k)
    ensures state == StateAfter(seed, TableLength)
  {
    ar := new real[TableLength];
    state := seed;
    var i := 0;
    while i < TableLength
      invariant 0 <= i <= TableLength
      invariant state == StateAfter(seed, i)
      invariant forall k :: 0 <= k < i ==> ar[k] == Draw(seed, k)
    {
      state := XorShift(state);
      ar[i] := Rnd(state) * 2.0 - 1.0;
      i := i + 1;
    }
  }

  /** The FFT bin of a frequency in Hz: the frequency times the table
      length over the sample rate, rounded down to an unsigned index. */
  function BinOf(freq: nat): (b: nat)
    ensures b * SampleRate <= freq * TableLength < (b + 1) * SampleRate
  {
    freq * TableLength / SampleRate
  }

  /** The hat band 1000-8000 Hz covers bins 170 to 1365, the tambourine
      band 4000-8000 Hz bins 682 to 1365. */
  lemma BandEdges()
    ensures BinOf(1000) == 170 && BinOf(8000) == 1365
    ensures BinOf(4000) == 682
  {
  }

  /** The frequency a transform bin stands for: bins past the Nyquist bin
      mirror those below it. */
  function Fold(i: nat): (f: nat)
    requires i < TableLength
    ensures f <= Nyquist
    ensures i <= Nyquist ==> f == i
    ensures i > Nyquist ==> f + i == TableLength
  {
    if i > Nyquist then TableLength - i else i
  }

  /** Mirrored bins fold to the same frequency. */
  lemma FoldSymmetric(i: nat)
    requires 0 < i < TableLength
    ensures Fold(i) == Fold(TableLength - i)
  {
  }

  /** The gain of bin i: 0 outside the band [lo, hi], rising linearly from 0
      at lo to 1 at hi inside it. With lo == hi the source divides zero by
      zero at the single bin of the band, so that case is excluded. */
  function Amp(i: nat, lo: nat, hi: nat): (a: real)
    requires i < TableLength && lo != hi
    ensures 0.0 <= a <= 1.0
    ensures !(lo <= Fold(i) <= hi) ==> a == 0.0
    ensures lo <= Fold(i) <= hi ==> a * (hi - lo) as real == (Fold(i) - lo) as real
    ensures lo < hi && Fold(i) == hi ==> a == 1.0
    ensures Fold(i) == lo ==> a == 0.0
  {
    var f := Fold(i);
    if lo <= f && f <= hi then
      Ratio((f - lo) as real, (hi - lo) as real);
      (f - lo) as real / (hi - lo) as real
    else 0.0
  }

  lemma Ratio(x: real, y: real)
    requires 0.0 <= x <= y && 0.0 < y
    ensures 0.0 <= x / y <= 1.0 && x / y * y == x
    ensures x == y ==> x / y == 1.0
  {
  }

  /** The mask is the same for a bin and its mirror image, so a real signal
      stays real after masking. */
  lemma AmpSymmetric(i: nat, lo: nat, hi: nat)
    requires 0 < i < TableLength && lo != hi
    ensures Amp(i, lo, hi) == Amp(TableLength - i, lo, hi)
  {
    FoldSymmetric(i);
  }

  /** The band's top bin passes at full gain and everything below its
      bottom bin, including the constant term, is removed. */
  lemma AmpEdges(lo: nat, hi: nat)
    requires lo < hi <= Nyquist
    ensures Amp(hi, lo, hi) == 1.0
    ensures forall i: nat :: i < lo ==> Amp(i, lo, hi) == 0.0
  {
  }

  /** The spectrum after masking, one part (real or imaginary) at a time:
      every bin scaled by its gain. */
  function Masked(xs: seq<real>, lo: nat, hi: nat): (ys: seq<real>)
    requires |xs| == TableLength && lo != hi
    ensures |ys| == |xs|
    ensures forall k :: 0 <= k < TableLength ==> (ys[k] == 0.0 <==> xs[k] == 0.0 || Amp(k, lo, hi) == 0.0)
  {
    seq(TableLength, k requires 0 <= k < TableLength => MaskedBin(xs[k], k, lo, hi))
  }

  function MaskedBin(x: real, k: nat, lo: nat, hi: nat): real
    requires k < TableLength && lo != hi
  {
    Scale(x, Amp(k, lo, hi))
  }

  /** The in-place scaling of one bin. */
  function Scale(x: real, a: real): real
  {
    x * a
  }

  /** Masking removes every bin outside the band and keeps the in-band
      bins scaled by their ramp gain. */
  lemma MaskedBand(xs: seq<real>, lo: nat, hi: nat, k: nat)
    requires |xs| == TableLength && lo != hi && k < TableLength
    ensures !(lo <= Fold(k) <= hi) ==> Masked(xs, lo, hi)[k] == 0.0
    ensures lo < hi && Fold(k) == hi ==> Masked(xs, lo, hi)[k] == xs[k]
    ensures lo <= Fold(k) <= hi ==> Masked(xs, lo, hi)[k] * (hi - lo) as real == xs[k] * (Fold(k) - lo) as real
  {
    var a := Amp(k, lo, hi);
    assert Masked(xs, lo, hi)[k] == xs[k] * a;
    if lo <= Fold(k) <= hi {
      var d := (hi - lo) as real;
      assert a * d == (Fold(k) - lo) as real;
      assert (xs[k] * a) * d == xs[k] * (a * d);
    }
  }

  /** Scaling commutes with negation. */
  lemma NegatedScale(x: real, a: real)
    ensures Scale(-x, a) == -Scale(x, a)
  {
  }

  /** The spectrum of a real signal has an even real part: masking keeps
      it even. */
  lemma MaskedKeepsEven(xs: seq<real>, lo: nat, hi: nat)
    requires |xs| == TableLength && lo != hi
    requires forall i :: 0 < i < TableLength ==> xs[i] == xs[TableLength - i]
    ensures forall i :: 0 < i < TableLength ==> Masked(xs, lo, hi)[i] == Masked(xs, lo, hi)[TableLength - i]
  {
    forall i | 0 < i < TableLength
      ensures Masked(xs, lo, hi)[i] == Masked(xs, lo, hi)[TableLength - i]
    {
      AmpSymmetric(i, lo, hi);
      assert xs[i] == xs[TableLength - i];
    }
  }

  /** ... and an odd imaginary part: masking keeps it odd. With both, the
      inverse transform of the masked spectrum is again a real signal. */
  lemma MaskedKeepsOdd(xs: seq<real>, lo: nat, hi: nat)
    requires |xs| == TableLength && lo != hi
    requires forall i :: 0 < i < TableLength ==> xs[i] == -xs[TableLength - i]
    ensures forall i :: 0 < i < TableLength ==> Masked(xs, lo, hi)[i] == -Masked(xs, lo, hi)[TableLength - i]
  {
    forall i | 0 < i < TableLength
      ensures Masked(xs, lo, hi)[i] == -Masked(xs, lo, hi)[TableLength - i]
    {
      AmpSymmetric(i, lo, hi);
      assert xs[i] == -xs[TableLength - i];
      NegatedScale(xs[TableLength - i], Amp(i, lo, hi));
    }
  }

  /** The masking loop: multiplies both the real and the imaginary part of
      every bin by its gain, in place. */
  method ApplyBandMask(ar: array<real>, ai: array<real>, lo: nat, hi: nat)
    requires ar.Length == TableLength && ai.Length == TableLength
    requires ar != ai && lo != hi
    modifies ar, ai
    ensures ar[..] == Masked(old(ar[..]), lo, hi)
    ensures ai[..] == Masked(old(ai[..]), lo, hi)
  {
    ghost var re := ar[..];
    ghost var im := ai[..];
    var i := 0;
    while i < TableLength
      invariant 0 <= i <= TableLength
      invariant forall k :: 0 <= k < i ==> ar[k] == MaskedBin(re[k], k, lo, hi)
      invariant forall k :: 0 <= k < i ==> ai[k] == MaskedBin(im[k], k, lo, hi)
      invariant forall k :: i <= k < TableLength ==> ar[k] == re[k] && ai[k] == im[k]
    {
      var f := i;
      if i > Nyquist {
        f := TableLength - i;
      }
      var amp := 0.0;
      if f >= lo && f <= hi {
        amp := (f - lo) as real / (hi - lo) as real;
      }
      assert amp == Amp(i, lo, hi);
      ar[i] := Scale(ar[i], amp);
      ai[i] := Scale(ai[i], amp);
      i := i + 1;
    }
    assert ar[..] == Masked(re, lo, hi);
    assert ai[..] == Masked(im, lo, hi);
  }
}
