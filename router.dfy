/**
 * The per-block process callback of the audio filter: for every sample of the
 * block it either copies the input sample to the output or, while the control
 * flag is set, advances the output port's phase accumulator and writes a sine
 * sample.
 */
module Router {
  import opened Tone

  /** The per-port user data the audio engine allocates; only the accumulator is used. */
  class Port {
    var accumulator: real
  }

  /**
   * The block the callback produces, as a function of the accumulator at the
   * start of the block, the input samples, the flag value read for each sample
   * and the sine function. A tone sample is the sine of the accumulator just
   * after that sample's advance, scaled by Volume.
   */
  function Block(acc: real, input: seq<real>, flags: seq<bool>, sine: real -> real): (out: seq<real>)
    requires |input| == |flags|
    ensures |out| == |flags|
  {
    seq(|flags|, i requires 0 <= i < |flags| =>
      if flags[i] then sine(PhaseAfter(acc, flags[..i + 1])) * Volume else input[i])
  }

  /**
   * The process callback. input and output are the buffers the engine hands out
   * for this block (null when it has none), nSamples the block length, flags[i]
   * the value of the control flag when sample i is processed, and sine the
   * sine function. When both buffers are present, the first nSamples output
   * samples become the block, the rest of the output buffer is untouched, and
   * the accumulator moves to its phase after the block; when either is absent
   * nothing changes. The buffers may be the same array.
   */
  method OnProcess(outPort: Port, input: array?<real>, output: array?<real>, nSamples: nat,
                   flags: seq<bool>, sine: real -> real)
    requires |flags| == nSamples
    requires input != null ==> nSamples <= input.Length
    requires output != null ==> nSamples <= output.Length
    modifies outPort, output
    ensures input == null || output == null ==>
      outPort.accumulator == old(outPort.accumulator) && (output != null ==> unchanged(output))
    ensures input != null && output != null ==>
      && output[..nSamples] == Block(old(outPort.accumulator), old(input[..nSamples]), flags, sine)
      && output[nSamples..] == old(output[nSamples..])
      && outPort.accumulator == PhaseAfter(old(outPort.accumulator), flags)
    ensures input != null && input != output ==> unchanged(input)
  {
    if input == null || output == null {
      return;
    }
    ghost var acc0 := outPort.accumulator;
    ghost var in0 := input[..nSamples];
    var i := 0;
    while i < nSamples
      invariant i <= nSamples
      invariant outPort.accumulator == PhaseAfter(acc0, flags[..i])
      invariant forall j :: 0 <= j < i ==> output[j] == Block(acc0, in0, flags, sine)[j]
      invariant forall j :: i <= j < output.Length ==> output[j] == old(output[j])
      invariant forall j :: i <= j < nSamples ==> input[j] == in0[j]
    {
      if flags[i] {
        outPort.accumulator := outPort.accumulator + Step;
        if outPort.accumulator >= TwoPi {
          outPort.accumulator := outPort.accumulator - TwoPi;
        }
        output[i] := sine(outPort.accumulator) * Volume;
      } else {
        output[i] := input[i];
      }
      assert flags[..i + 1][..i] == flags[..i];
      i := i + 1;
    }
    assert flags[..nSamples] == flags;
    assert output[..nSamples] == Block(acc0, in0, flags, sine);
  }

  /**
   * A block in which the flag is never set is a copy of the input, and the
   * accumulator keeps its value.
   */
  lemma PassThroughBlock(acc: real, input: seq<real>, flags: seq<bool>, sine: real -> real)
    requires |input| == |flags|
    requires forall i :: 0 <= i < |flags| ==> !flags[i]
    ensures Block(acc, input, flags, sine) == input
    ensures PhaseAfter(acc, flags) == acc
  {
    PassThroughKeepsPhase(acc, flags);
  }

  /**
   * A block in which the flag is always set, started from a phase in
   * [0, 2*pi), holds at index i the sine of the start phase advanced by i + 1
   * steps (Offset(i + 1)) modulo 2*pi, and leaves the accumulator advanced by as
   * many steps as the block has samples.
   */
  lemma ToneBlock(acc: real, input: seq<real>, flags: seq<bool>, sine: real -> real)
    requires InRange(acc)
    requires |input| == |flags|
    requires forall i :: 0 <= i < |flags| ==> flags[i]
    ensures forall i :: 0 <= i < |flags| ==>
      Block(acc, input, flags, sine)[i] == sine(Wrap(acc + Offset(i + 1))) * Volume
    ensures PhaseAfter(acc, flags) == Wrap(acc + Offset(|flags|))
  {
    forall i | 0 <= i < |flags|
      ensures Block(acc, input, flags, sine)[i] == sine(Wrap(acc + Offset(i + 1))) * Volume
    {
      AllToneCount(flags[..i + 1]);
      PhaseAfterClosedForm(acc, flags[..i + 1]);
    }
    AllToneCount(flags);
    PhaseAfterClosedForm(acc, flags);
  }

  /**
   * Splitting a run of samples into two consecutive blocks produces the same
   * output as one block: the second block starts from the accumulator the first
   * left behind, so the tone continues across blocks without a jump.
   */
  lemma BlockSplit(acc: real, in1: seq<real>, f1: seq<bool>, in2: seq<real>, f2: seq<bool>,
                   sine: real -> real)
    requires |in1| == |f1| && |in2| == |f2|
    ensures Block(acc, in1 + in2, f1 + f2, sine)
         == Block(acc, in1, f1, sine) + Block(PhaseAfter(acc, f1), in2, f2, sine)
  {
    var whole := Block(acc, in1 + in2, f1 + f2, sine);
    var parts := Block(acc, in1, f1, sine) + Block(PhaseAfter(acc, f1), in2, f2, sine);
    forall i | 0 <= i < |whole|
      ensures whole[i] == parts[i]
    {
      if i < |f1| {
        assert (f1 + f2)[..i + 1] == f1[..i + 1];
      } else {
        var j := i - |f1|;
        assert (f1 + f2)[..i + 1] == f1 + f2[..j + 1];
        PhaseAfterCompose(acc, f1, f2[..j + 1]);
      }
    }
  }
}
