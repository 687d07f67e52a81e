/**
 * The tone generator of the audio filter: the fixed configuration constants and
 * the phase accumulator of the output port, advanced by a fixed step and wrapped
 * once at 2*pi on every tone sample.
 *
 * The accumulator is an exact real number of radians; the rounding of the
 * double-precision arithmetic is not part of this model.
 */
module Tone {

  /** M_PI + M_PI, written as the shortest decimal of the double it evaluates to. */
  const TwoPi: real := 6.283185307179586

  /** Sample rate the phase step assumes, in samples per second; the filter does not set it. */
  const Rate: nat := 44100

  /** Frequency of the generated tone, in hertz. */
  const Freq: nat := 440

  /** Amplitude the sine is scaled by. */
  const Volume: real := 0.6

  /** Phase increment per tone sample: 2*pi * Freq / Rate radians. */
  const Step: real := TwoPi * (Freq as real) / (Rate as real)

  /** The accumulator invariant: a phase in [0, 2*pi). */
  predicate InRange(acc: real) {
    0.0 <= acc < TwoPi
  }

  /**
   * One tone-sample advance of the accumulator: add the step, and subtract 2*pi
   * once if the sum reached 2*pi. One subtraction suffices because Step < TwoPi.
   */
  function Advance(acc: real): (r: real)
    ensures InRange(acc) ==> InRange(r)
  {
    var a := acc + Step;
    if a >= TwoPi then a - TwoPi else a
  }

  /**
   * The accumulator after a run of samples, where flags[i] is the value of the
   * control flag read for sample i: a tone sample advances the accumulator, a
   * pass-through sample leaves it alone.
   */
  function PhaseAfter(acc: real, flags: seq<bool>): (r: real)
    ensures InRange(acc) ==> InRange(r)
    decreases |flags|
  {
    if flags == [] then acc
    else
      var before := PhaseAfter(acc, flags[..|flags| - 1]);
      if flags[|flags| - 1] then Advance(before) else before
  }

  /** Number of tone samples in a run. */
  function ToneCount(flags: seq<bool>): (k: nat)
    ensures k <= |flags|
    decreases |flags|
  {
    if flags == [] then 0
    else ToneCount(flags[..|flags| - 1]) + (if flags[|flags| - 1] then 1 else 0)
  }

  /** x reduced modulo 2*pi into [0, 2*pi). */
  function Wrap(x: real): (r: real)
    ensures InRange(r)
  {
    x - TwoPi * ((x / TwoPi).Floor as real)
  }

  /** Wrap is the identity on [0, 2*pi) shifted by any whole number of turns. */
  lemma WrapShift(y: real, m: int)
    requires InRange(y)
    ensures Wrap(y + (m as real) * TwoPi) == y
  {
    var x := y + (m as real) * TwoPi;
    assert x / TwoPi == y / TwoPi + m as real;
    assert 0.0 <= y / TwoPi < 1.0;
    assert (x / TwoPi).Floor == m;
  }

  /** Every real is its wrapped value plus a whole number of turns. */
  lemma WrapDecompose(x: real) returns (m: int)
    ensures x == Wrap(x) + (m as real) * TwoPi
  {
    m := (x / TwoPi).Floor;
  }

  /** Advancing a wrapped phase is wrapping the phase advanced by one step. */
  lemma WrapAdvance(x: real)
    ensures Wrap(x + Step) == Advance(Wrap(x))
  {
    var p := Wrap(x);
    var m := WrapDecompose(x);
    var q := Advance(p);
    if p + Step >= TwoPi {
      assert x + Step == q + ((m + 1) as real) * TwoPi;
      WrapShift(q, m + 1);
    } else {
      assert x + Step == q + (m as real) * TwoPi;
      WrapShift(q, m);
    }
  }

  /** The total advance of k tone samples before any wrap: k steps. */
  function Offset(k: nat): (d: real)
    ensures d == (k as real) * Step
  {
    if k == 0 then 0.0 else Offset(k - 1) + Step
  }

  /**
   * The accumulator after a run is the start phase plus one step per tone
   * sample, reduced modulo 2*pi: the phase moves only in tone mode, by exactly
   * the number of tone samples.
   */
  lemma {:induction false} PhaseAfterClosedForm(acc: real, flags: seq<bool>)
    requires InRange(acc)
    ensures PhaseAfter(acc, flags) == Wrap(acc + Offset(ToneCount(flags)))
    decreases |flags|
  {
    if flags == [] {
      WrapShift(acc, 0);
    } else {
      var init := flags[..|flags| - 1];
      PhaseAfterClosedForm(acc, init);
      if flags[|flags| - 1] {
        WrapAdvance(acc + Offset(ToneCount(init)));
      }
    }
  }

  /** The accumulator after k tone samples and no pass-through samples. */
  function AdvanceTimes(acc: real, k: nat): real
    decreases k
  {
    if k == 0 then acc else Advance(AdvanceTimes(acc, k - 1))
  }

  /**
   * Whatever the start phase, the accumulator after a run depends only on how
   * many of its samples were tone samples.
   */
  lemma {:induction false} PhaseAfterTones(acc: real, flags: seq<bool>)
    ensures PhaseAfter(acc, flags) == AdvanceTimes(acc, ToneCount(flags))
    decreases |flags|
  {
    if flags != [] {
      PhaseAfterTones(acc, flags[..|flags| - 1]);
    }
  }

  /**
   * Runs with the same number of tone samples leave the accumulator at the same
   * phase, however the pass-through samples are interleaved and whatever the
   * start phase: switching the tone off and on again resumes it where it stopped.
   */
  lemma {:induction false} SameToneCountSamePhase(acc: real, f: seq<bool>, g: seq<bool>)
    requires ToneCount(f) == ToneCount(g)
    ensures PhaseAfter(acc, f) == PhaseAfter(acc, g)
  {
    PhaseAfterTones(acc, f);
    PhaseAfterTones(acc, g);
  }

  /** Running two runs one after the other is running their concatenation. */
  lemma {:induction false} PhaseAfterCompose(acc: real, f: seq<bool>, g: seq<bool>)
    ensures PhaseAfter(acc, f + g) == PhaseAfter(PhaseAfter(acc, f), g)
    decreases |g|
  {
    if g == [] {
      assert f + g == f;
    } else {
      assert (f + g)[..|f + g| - 1] == f + g[..|g| - 1];
      PhaseAfterCompose(acc, f, g[..|g| - 1]);
    }
  }

  /** A run without tone samples leaves the accumulator where it was. */
  lemma {:induction false} PassThroughKeepsPhase(acc: real, flags: seq<bool>)
    requires forall i :: 0 <= i < |flags| ==> !flags[i]
    ensures PhaseAfter(acc, flags) == acc
    decreases |flags|
  {
    if flags != [] {
      PassThroughKeepsPhase(acc, flags[..|flags| - 1]);
    }
  }

  /** A run made only of tone samples counts every one of them. */
  lemma {:induction false} AllToneCount(flags: seq<bool>)
    requires forall i :: 0 <= i < |flags| ==> flags[i]
    ensures ToneCount(flags) == |flags|
    decreases |flags|
  {
    if flags != [] {
      AllToneCount(flags[..|flags| - 1]);
    }
  }
}
