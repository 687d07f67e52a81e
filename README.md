# bleep: tone-substituting audio filter, modelled in Dafny

bleep is a PipeWire filter with one mono input port and one mono output port.
Normally it copies its input to its output. After a key press with right Control
held, and until the next release of any key, it writes a 440 Hz sine tone at
volume 0.6 instead. The phase step assumes a sample rate of 44100
(`DEFAULT_RATE`). The filter does not set the graph's rate, so the tone is 440 Hz
only when the graph runs at that rate.
A keyboard listener thread sets a shared flag on key events. The real-time
process callback reads that flag for every sample. The sine phase lives in the
output port's accumulator. It only advances on tone samples, so the tone resumes
where it stopped.

The model has three modules:

- `Tone` (tone.dfy): the constants and the phase accumulator arithmetic.
  - `Advance` is one tone-sample step: add 2π·440/44100, then subtract 2π once if the sum reached 2π.
  - `PhaseAfter` is the accumulator after a run of samples, given the flag value read for each sample.
  - The lemmas give its closed form: the start phase plus one step per tone sample, modulo 2π.
  - `Offset(k)` is a helper for that closed form: k repeated additions of the step, proved equal to k times the step.
- `Router` (router.dfy): the process callback `OnProcess`, a loop over the output array.
  - It is proved against `Block`, the block the callback must produce.
  - The lemmas state pass-through identity, the samples of a pure tone block, and phase continuity across blocks.
- `Control` (control.dfy): the key handler `ControlFlag.OnKey`, which updates the flag.
  - `FlagAfterEvents` characterises the flag after any sequence of key events.

Modelling choices:

- The accumulator is an exact `real` number of radians.
  - `TwoPi` is 6.283185307179586, the shortest decimal of the double `M_PI + M_PI`.
  - Double and float rounding is not modelled.
- `sin` is not defined. The callback and `Block` take it as a parameter `sine: real -> real`.
  - Every tone sample is `sine(acc) * Volume`, where `acc` is the accumulator just after that sample's advance.
- Samples are `real`.
- The buffers are nullable arrays `array?<real>`, standing for what `pw_filter_get_dsp_buffer` returns.
  - A non-null buffer holds at least `n_samples` samples.
  - Input and output may even be the same array. The contract is stated against the input as it was on entry.
- The flag is re-read on every iteration (bleep.c:63). So the callback takes one flag value per sample, `flags[i]`.
  - Reading the flag once per block is the special case where all `flags[i]` are equal.
- The code checks only for null buffers (bleep.c:58-59).
  - A zero-length block runs no iterations, so it changes nothing. This follows from the `OnProcess` contract with `nSamples == 0`.
- The accumulator's initial value comes from the engine's allocation of the port.
  - `OnProcess` does not constrain it.
  - The lemmas that need it in [0, 2π) say so.

## Model

| member | source | states |
|---|---|---|
| `Tone.Advance` | bleep.c:64-66 | From a phase in [0, 2π), one tone-sample advance with a single wrap leaves the phase in [0, 2π). |
| `Tone.PhaseAfter` | bleep.c:62-72 | If the accumulator starts in [0, 2π), it is still in [0, 2π) after any run of samples. |
| `Tone.WrapAdvance` | bleep.c:64-66 | Adding the step and subtracting 2π at most once is the same as adding the step modulo 2π. |
| `Tone.PhaseAfterClosedForm` | bleep.c:62-72 | From a phase in [0, 2π), the accumulator after a run is (start + k·step) mod 2π, where k is the number of tone samples. |
| `Tone.PhaseAfterTones` | bleep.c:62-72 | From any start phase, the accumulator after a run is the start advanced once per tone sample; pass-through samples do not move it. |
| `Tone.SameToneCountSamePhase` | bleep.c:62-72 | From any start phase, two runs with the same number of tone samples leave the same phase, however pass-through samples are interleaved. So the tone resumes where it stopped. |
| `Tone.PhaseAfterCompose` | bleep.c:62-72 | Processing two runs one after the other gives the same accumulator as processing their concatenation. The phase carries over between blocks. |
| `Tone.PassThroughKeepsPhase` | bleep.c:69-71 | A run with the flag never set leaves the accumulator unchanged. |
| `Router.OnProcess` | bleep.c:49-73 | With either buffer null, nothing changes. Otherwise `out[0..n)` becomes the block: input copied where the flag is clear, and `sine(acc)·0.6` after the advance where it is set. `out[n..]` is untouched, the accumulator ends at its phase after the block, and a distinct input is not modified. |
| `Router.PassThroughBlock` | bleep.c:62-71 | With the flag clear for the whole block, the output equals the input and the accumulator keeps its value. |
| `Router.ToneBlock` | bleep.c:62-68 | With the flag set for the whole block and a start phase in [0, 2π), sample i is `sine((start + (i+1)·step) mod 2π)·0.6`, and the accumulator ends n steps on, modulo 2π. |
| `Router.BlockSplit` | bleep.c:62-72 | One block equals two consecutive blocks, the second starting from the accumulator the first left. The tone has no discontinuity at block boundaries. |
| `Control.ControlFlag.constructor` | bleep.c:23 | The flag starts cleared. |
| `Control.ControlFlag.OnKey` | bleep.c:25-33 | A release clears the flag whatever the modifiers are. A press with right Control held sets it. Any other press leaves it unchanged. |
| `Control.FlagAfterEvents` | bleep.c:25-33 | After any sequence of events, the flag is set exactly when some right-Control press has no release after it, or when it was set before and no release happened. |

## Left out

- The PipeWire setup is not modelled, because it is foreign library calls and lifecycle glue. This covers `thread_proc_pw`, `do_quit` and `filter_events` (bleep.c:75-134): the main loop, the filter, the two ports, the 10 ms process-latency parameter and the SIGINT/SIGTERM handlers.
- The listener and process glue is not modelled, because it is thread plumbing and I/O. This covers `thread_proc_vinput` and `main` (bleep.c:136-178): the libvinput listener, thread creation and joining, error messages and exit codes.
- The atomicity and memory ordering of `g_bleep` are not modelled. Concurrency has no counterpart in this sequential model. The flag is a plain field, and the callback sees the value of each read as `flags[i]`.
- How `pw_filter_get_dsp_buffer` finds buffers is not modelled. The buffers are parameters of `OnProcess`, and `n_samples` (`position->clock.duration`) is the parameter `nSamples`.
- The concrete values of `sin` are not modelled, and neither is the rounding of the double accumulator or of the float samples. `sin` is a parameter, and the arithmetic is exact.
- The 32-bit width of `n_samples` and `i` is not modelled, because the loop bound is the same for any width.
- The graph's actual sample rate is not modelled. The filter never sets or reads it (bleep.c:96-120), and the step uses the fixed 44100, so the model's tone frequency is 440 Hz only at that rate.
- libvinput.h is not part of this model. A key event is reduced to the two fields the handler reads: `pressed` and `modifiers.right_control`.
