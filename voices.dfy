/** The three voices of the audio renderer (music.cc). Each adds one note
    into the sample buffer, sample by sample, starting at sample `st`:
    - the hat and the tambourine add a fixed band-noise table of 8192
      samples under the parabolic decay (1 - t)^2, t = k / 8192;
    - the kick adds a pitched waveform, softened by a cubic saturation
      shaper and shaped by the envelope 1 - exp(8 (t - 0.5)), t = k / 48000,
      and stops at the first sample whose envelope is not positive.

    The noise tables (built by an FFT band-pass filter), the kick's raw
    waveform (a sine of an exponential phase sweep) and `exp` are
    floating-point transcendentals; they are inputs here, in a `Kit`. */
module Voices {
  import opened SampleBuffer

  const SampleRate: nat := 48000
  /** Length of a band-noise table, and of a hat or tambourine note. */
  const NoiseLength: nat := 8192
  /** Number of samples the kick writes: its envelope is positive exactly
      below this index (see `KickEnvelope`). */
  const KickLength: nat := 24000
  const KickEnvBoundary: real := 0.5
  const KickSaturation: real := 0.2
  const KickGain: real := 0.2

  /** The externally computed ingredients of the voices:
      - `hatNoise`, `tambourineNoise`: the two band-noise tables;
      - `kickWave(k)`: the kick's unshaped waveform at sample k;
      - `exp`: the exponential function. */
  datatype Kit = Kit(hatNoise: seq<real>, tambourineNoise: seq<real>, kickWave: nat -> real, exp: real -> real)

  /** The tables have their fixed length, and `exp` has the sign facts of
      the exponential function that the kick's stopping rule depends on. */
  ghost predicate ValidKit(kit: Kit)
  {
    |kit.hatNoise| == NoiseLength && |kit.tambourineNoise| == NoiseLength &&
    forall x: real :: 0.0 < kit.exp(x) && (kit.exp(x) < 1.0 <==> x < 0.0)
  }

  /** The decay of the noise voices, 1 - 2t + t^2 at t = k / 8192: the
      square (1 - t)^2, positive and at most 1 over the whole note. */
  function NoiseEnvelope(k: nat): (e: real)
    ensures e == Product(1.0 - k as real / 8192.0, 1.0 - k as real / 8192.0)
    ensures k < NoiseLength ==> 0.0 < e <= 1.0
  {
    var t := k as real / 8192.0;
    SquareOfDifference(t);
    1.0 - 2.0 * t + t * t
  }

  /** The product of two reals, with the sign and size facts the envelopes
      need. */
  function Product(x: real, y: real): (r: real)
    ensures 0.0 < x && 0.0 < y ==> 0.0 < r
    ensures 0.0 <= x <= 1.0 && 0.0 <= y <= 1.0 ==> r <= 1.0
  {
    ProductBounds(x, y);
    x * y
  }

  lemma ProductBounds(x: real, y: real)
    ensures 0.0 < x && 0.0 < y ==> 0.0 < x * y
    ensures 0.0 <= x <= 1.0 && 0.0 <= y <= 1.0 ==> x * y <= 1.0
  {
    if 0.0 <= x <= 1.0 && 0.0 <= y <= 1.0 {
      NonnegativeProduct(x, 1.0 - y);
      assert x * (1.0 - y) == x - x * y;
    }
  }

  lemma SquareOfDifference(t: real)
    ensures Product(1.0 - t, 1.0 - t) == 1.0 - 2.0 * t + t * t
  {
  }

  /** The samples a noise voice adds, in order. */
  function NoiseRun(table: seq<real>): (xs: seq<real>)
    requires |table| == NoiseLength
    ensures |xs| == |table|
    ensures forall k :: 0 <= k < |xs| ==> (0.0 <= table[k] ==> 0.0 <= xs[k] <= table[k])
    ensures forall k :: 0 <= k < |xs| ==> (table[k] <= 0.0 ==> table[k] <= xs[k] <= 0.0)
  {
    seq(NoiseLength, k requires 0 <= k < NoiseLength => NoiseSample(table, k))
  }

  /** The sample a noise voice adds at offset k. */
  function NoiseSample(table: seq<real>, k: nat): (x: real)
    requires k < |table|
    ensures k < NoiseLength && 0.0 <= table[k] ==> 0.0 <= x <= table[k]
    ensures k < NoiseLength && table[k] <= 0.0 ==> table[k] <= x <= 0.0
  {
    Attenuated(table[k], NoiseEnvelope(k));
    table[k] * NoiseEnvelope(k)
  }

  /** The write loop shared by `hat` and `tambourine`. */
  method PlayNoise(buf: Samples, table: seq<real>, st: nat)
    requires buf.Valid() && |table| == NoiseLength
    modifies buf, buf.s
    ensures buf.Valid() && (buf.s == old(buf.s) || fresh(buf.s))
    ensures buf.Model() == AddedRun(old(buf.Model()), st, NoiseRun(table))
  {
    ghost var before := buf.Model();
    ghost var xs := NoiseRun(table);
    var i: nat := 0;
    while i < NoiseLength
      invariant 0 <= i <= NoiseLength
      invariant buf.Valid() && (buf.s == old(buf.s) || fresh(buf.s))
      invariant buf.Model() == AddedRun(before, st, xs[..i])
    {
      var x := NoiseSample(table, i);
      AddNext(buf, before, st, xs, i, x);
      i := i + 1;
    }
    assert xs[..i] == xs;
  }

  /** Adds sample `i` of the run `xs` that starts at `st`: the buffer then
      holds the first i + 1 samples of the run over `before`. */
  method AddNext(buf: Samples, ghost before: Store, st: nat, ghost xs: seq<real>, i: nat, x: real)
    requires buf.Valid() && Valid(before) && i < |xs| && xs[i] == x
    requires buf.Model() == AddedRun(before, st, xs[..i])
    modifies buf, buf.s
    ensures buf.Valid() && (buf.s == old(buf.s) || fresh(buf.s))
    ensures buf.Model() == AddedRun(before, st, xs[..i + 1])
  {
    AddedRunStep(before, st, xs, i);
    buf.Add(st + i, x);
  }

  /** `hat`: the 1000-8000 Hz noise table. */
  method Hat(buf: Samples, kit: Kit, st: nat)
    requires buf.Valid() && ValidKit(kit)
    modifies buf, buf.s
    ensures buf.Valid() && (buf.s == old(buf.s) || fresh(buf.s))
    ensures buf.Model() == AddedRun(old(buf.Model()), st, NoiseRun(kit.hatNoise))
  {
    PlayNoise(buf, kit.hatNoise, st);
  }

  /** `tambourine`: the 4000-8000 Hz noise table. */
  method Tambourine(buf: Samples, kit: Kit, st: nat)
    requires buf.Valid() && ValidKit(kit)
    modifies buf, buf.s
    ensures buf.Valid() && (buf.s == old(buf.s) || fresh(buf.s))
    ensures buf.Model() == AddedRun(old(buf.Model()), st, NoiseRun(kit.tambourineNoise))
  {
    PlayNoise(buf, kit.tambourineNoise, st);
  }

  /** The kick's envelope at sample k. It is positive exactly for the first
      24000 samples (half a second), and always below 1: the kick's write
      loop stops at sample 24000, and every sample it writes has a positive
      envelope. */
  function KickEnvelope(kit: Kit, k: nat): (e: real)
    ensures ValidKit(kit) ==> (e > 0.0 <==> k < KickLength)
    ensures ValidKit(kit) ==> e < 1.0
  {
    var x := 8.0 * (k as real / 48000.0 - KickEnvBoundary);
    assert k < KickLength <==> x < 0.0;
    1.0 - kit.exp(x)
  }

  /** The cubic soft-saturation shaper c1 b + c2 b^3 with c1 = 1.5 - sat and
      c2 = sat - 0.5. It keeps 1 and -1 in place, is the identity at
      sat = 0.5 (no saturation), and for sat in [0, 0.5] maps [-1, 1] into
      [-1, 1]: no clipping. */
  function Saturate(sat: real, b: real): (y: real)
    ensures b == 1.0 ==> y == 1.0
    ensures b == -1.0 ==> y == -1.0
    ensures sat == 0.5 ==> y == b
    ensures 0.0 <= sat <= 0.5 && -1.0 <= b <= 1.0 ==> -1.0 <= y <= 1.0
  {
    var a := 0.5 - sat;
    assert (1.5 - sat) * b + (sat - 0.5) * b * b * b == b + a * b * (1.0 - b * b);
    assert (1.5 - sat) * -b + (sat - 0.5) * -b * -b * -b == -((1.5 - sat) * b + (sat - 0.5) * b * b * b);
    UpperHalf(a, b);
    UpperHalf(a, -b);
    (1.5 - sat) * b + (sat - 0.5) * b * b * b
  }

  /** The derivative of `Saturate` with respect to b. */
  function SaturateSlope(sat: real, b: real): real
  {
    (1.5 - sat) + 3.0 * (sat - 0.5) * b * b
  }

  /** `SaturateSlope` is the derivative: the change of `Saturate` over a step
      h differs from h times the slope by a multiple of h^2. */
  lemma SaturateSlopeIsDerivative(sat: real, b: real, h: real)
    ensures Saturate(sat, b + h) - Saturate(sat, b) - h * SaturateSlope(sat, b)
            == (sat - 0.5) * h * h * (3.0 * b + h)
  {
    calc {
      Saturate(sat, b + h) - Saturate(sat, b);
      (1.5 - sat) * h + (sat - 0.5) * ((b + h) * (b + h) * (b + h) - b * b * b);
      { assert (b + h) * (b + h) * (b + h) - b * b * b == 3.0 * b * b * h + 3.0 * b * h * h + h * h * h; }
      (1.5 - sat) * h + (sat - 0.5) * (3.0 * b * b * h + 3.0 * b * h * h + h * h * h);
    }
  }

  /** The shaper's design constraints: f(1) = 1 and f'(1) = 2 sat; it is odd. */
  lemma SaturateDesign(sat: real, b: real)
    ensures Saturate(sat, 1.0) == 1.0
    ensures SaturateSlope(sat, 1.0) == 2.0 * sat
    ensures Saturate(sat, -b) == -Saturate(sat, b)
  {
  }

  /** The shaper written as b + a b (1 - b^2), a = 0.5 - sat, stays in
      [0, 1] on [0, 1]. */
  lemma UpperHalf(a: real, b: real)
    ensures 0.0 <= a <= 0.5 && 0.0 <= b <= 1.0 ==> 0.0 <= b + a * b * (1.0 - b * b) <= 1.0
  {
    if 0.0 <= a <= 0.5 && 0.0 <= b <= 1.0 {
      UpperHalfBounds(a, b);
    }
  }

  lemma UpperHalfBounds(a: real, b: real)
    requires 0.0 <= a <= 0.5 && 0.0 <= b <= 1.0
    ensures 0.0 <= b + a * b * (1.0 - b * b) <= 1.0
  {
    NonnegativeProduct(b, 1.0 - b);
    assert b * b <= 1.0;
    NonnegativeProduct(b, 1.0 - b * b);
    NonnegativeProduct(a, b * (1.0 - b * b));
    var q := b * (1.0 + b);
    assert 0.0 <= q <= 2.0;
    NonnegativeProduct(0.5 - a, q);
    assert a * q <= 1.0;
    NonnegativeProduct(1.0 - b, 1.0 - a * q);
    assert 1.0 - (b + a * b * (1.0 - b * b)) == (1.0 - b) * (1.0 - a * q);
  }

  lemma NonnegativeProduct(x: real, y: real)
    requires 0.0 <= x && 0.0 <= y
    ensures 0.0 <= x * y
  {
  }

  /** The sample the kick adds at offset k. With a waveform in [-1, 1] (a
      sine), it never exceeds the gain 0.2 in magnitude. */
  function KickSample(kit: Kit, k: nat): (x: real)
    ensures ValidKit(kit) && k < KickLength && -1.0 <= kit.kickWave(k) <= 1.0 ==> -KickGain <= x <= KickGain
  {
    Shaped(KickEnvelope(kit, k), Saturate(KickSaturation, kit.kickWave(k)))
  }

  /** The enveloped, shaped waveform at the kick's output gain: with an
      envelope in [0, 1] and a shaped value in [-1, 1], within the gain. */
  function Shaped(e: real, body: real): (x: real)
    ensures 0.0 <= e <= 1.0 && -1.0 <= body <= 1.0 ==> -KickGain <= x <= KickGain
  {
    Attenuated(body, e);
    e * body * KickGain
  }

  /** Scaling by a factor in [0, 1] keeps the sign and never grows the
      magnitude. */
  lemma Attenuated(x: real, e: real)
    ensures 0.0 <= e <= 1.0 && 0.0 <= x ==> 0.0 <= x * e <= x && e * x == x * e
    ensures 0.0 <= e <= 1.0 && x <= 0.0 ==> x <= x * e <= 0.0 && e * x == x * e
  {
    if 0.0 <= e <= 1.0 {
      if 0.0 <= x {
        NonnegativeProduct(x, e);
        NonnegativeProduct(x, 1.0 - e);
      } else {
        NonnegativeProduct(-x, e);
        NonnegativeProduct(-x, 1.0 - e);
      }
    }
  }

  /** The samples the kick adds, in order: exactly those whose envelope is
      positive, each within the gain for a waveform in [-1, 1]. */
  function KickRun(kit: Kit): (xs: seq<real>)
    ensures ValidKit(kit) ==> forall k: nat :: k < |xs| <==> KickEnvelope(kit, k) > 0.0
    ensures ValidKit(kit) ==> forall k :: 0 <= k < |xs| && -1.0 <= kit.kickWave(k) <= 1.0 ==>
              -KickGain <= xs[k] <= KickGain
  {
    seq(KickLength, k requires 0 <= k => KickSample(kit, k))
  }

  /** `kick`: adds samples until the envelope is no longer positive. */
  method Kick(buf: Samples, kit: Kit, st: nat)
    requires buf.Valid() && ValidKit(kit)
    modifies buf, buf.s
    ensures buf.Valid() && (buf.s == old(buf.s) || fresh(buf.s))
    ensures buf.Model() == AddedRun(old(buf.Model()), st, KickRun(kit))
  {
    ghost var before := buf.Model();
    ghost var xs := KickRun(kit);
    var i: nat := 0;
    while true
      invariant i <= KickLength
      invariant buf.Valid() && (buf.s == old(buf.s) || fresh(buf.s))
      invariant buf.Model() == AddedRun(before, st, xs[..i])
      decreases KickLength - i
    {
      var body := Saturate(KickSaturation, kit.kickWave(i));
      var e := KickEnvelope(kit, i);
      if e <= 0.0 {
        break;
      }
      AddNext(buf, before, st, xs, i, Shaped(e, body));
      i := i + 1;
    }
    assert xs[..i] == xs;
  }
}
