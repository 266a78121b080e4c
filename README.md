# PicoVFO front panel and side tone, modelled in Dafny

PicoVFO is a variable-frequency oscillator for the 40 metre band. It runs on a
Raspberry Pi Pico, with a rotary encoder, an SSD1306 display, an Si5351
synthesizer and an I2S audio tone. This project models the parts of the
firmware that carry real logic and proves properties about them:

- `vfo.dfy` (module `Vfo`) covers main.cpp. It holds the 2-bit quadrature pin
  code and the decoder in the pin-change interrupt. The decoder keeps a saved
  previous code and a signed tick counter. A forward Gray-code table raises
  the counter, a reverse table lowers it, and every other transition is
  dropped. The module also holds the two-flag switch latch, run by the
  delayed confirmation, and one iteration of the polling loop. That loop
  drains the ticks into the tuned frequency `value`: half the ticks, with
  C++ truncating division, each worth 10^(6 - digit) Hz, clamped to
  [7000000, 7200000]. It also moves the digit cursor `currentDigit`
  cyclically 1..6 on a press. The globals and the locals of `main()` that the
  loop updates are the fields of class `Vfo.FrontPanel`, and the handlers
  and the loop body are its methods.
- `audio.dfy` (module `Audio`) covers audio.cpp. It holds the 32-bit phase
  accumulator of `get_audio_frame`. The accumulator adds `step`, wraps at
  `pos_max` and reads a 2048-entry table at `pos >> 16`. The module also
  holds `update_buffer`, which fills an audio buffer in place with
  successive frames. The phase is a field of class `Audio.ToneGenerator`,
  and the buffer is class `Audio.AudioBuffer` over an `array<int>`.

The switch branch of `encoder_callback` only schedules the 50 ms
confirmation alarm. In the model that branch leaves the state unchanged, and
`HandleSwitch` stands for the alarm's handler, taking the live pin level
read when it fires.

## Model

| member | source | states |
|---|---|---|
| `Vfo.EncState` | main.cpp:36-42 | the pin code is in [0,3], with DT in bit 0 and CLK in bit 1, so the code determines both line levels |
| `Vfo.EncStateDecodes` | main.cpp:40 | every code in [0,3] is read from exactly one pair of line levels |
| `Vfo.IsForward` | main.cpp:80 | the forward table (2->3, 3->1, 1->0, 0->2); each of its pairs changes exactly one encoder line |
| `Vfo.IsReverse` | main.cpp:84 | the reverse table (3->2, 2->0, 0->1, 1->3); each of its pairs changes exactly one encoder line |
| `Vfo.Delta` | main.cpp:80-87 | a transition changes the count by +1 exactly on a forward pair, by -1 exactly on a reverse pair, and by 0 on a repeated code or a skipped one (0<->3, 1<->2); the tables are disjoint, so the change is at most 1 |
| `Vfo.TablesAreGraySteps` | main.cpp:80-87 | forward pairs advance the quadrature phase 0->2->3->1 by one quarter and reverse pairs move it back by one; the reverse table is the forward table with each pair swapped |
| `Vfo.DeltaAntisymmetric` | main.cpp:80-87 | crossing an edge and then crossing it back leaves the count as it was |
| `Vfo.TicksAlongReverse` | main.cpp:76-87 | retracing any walk of codes in reverse order cancels its net ticks |
| `Vfo.TicksAlongBounded` | main.cpp:80-87 | a walk of n transitions changes the count by at most n |
| `Vfo.FullCycleCountsFour` | main.cpp:80-87 | one full quadrature cycle counts +4 forward and -4 in reverse |
| `Vfo.FrontPanel.EncoderCallback` | main.cpp:59-89 | an edge on CLK or DT sets the saved code to the new code, valid transition or not, and adds Delta(old code, new code) to the count; a repeated code changes neither; any other gpio, the switch included, changes neither |
| `Vfo.FrontPanel.ReplayEdges` | main.cpp:59-89 | a run of decoder interrupts over a walk of codes, starting from the saved code, moves `encoder_count` by `TicksAlong` of the walk and leaves the saved code at its last code, which links the walk lemmas to the interrupt handler |
| `Vfo.LatchStep` | main.cpp:44-57 | after a confirmation `button_state` equals the live pin level; the press flag is raised only on a released-to-high change and is never cleared |
| `Vfo.LatchIdempotent` | main.cpp:46-55 | confirming twice with the same level has the effect of confirming once |
| `Vfo.LatchRunState` | main.cpp:46-55 | after any run of confirmations the state is the last level read, and the flag is up exactly when it was up before or some confirmation saw a released-to-high change |
| `Vfo.FrontPanel.HandleSwitch` | main.cpp:44-57 | the two flags change as LatchStep dictates for the given pin level |
| `Vfo.TruncDiv` | main.cpp:185 | C++ division: the remainder has the sign of the dividend and is smaller in magnitude than the divisor |
| `Vfo.TruncDivNegate` | main.cpp:185 | truncating division is symmetric about zero |
| `Vfo.TruncDivIsNotEuclidean` | main.cpp:185 | -3 / 2 is -1 in C++ and -2 in Euclidean division |
| `Vfo.Pow10` | main.cpp:185 | powers of ten are positive, and multiples of ten from 10^1 on |
| `Vfo.DigitSteps` | main.cpp:185 | digits 1..6 select steps of 100000, 10000, 1000, 100, 10 and 1 Hz |
| `Vfo.Clamp` | main.cpp:188 | the result lies in [lo, hi] and equals x when x is already there |
| `Vfo.ClampIsNearest` | main.cpp:188 | the clamp gives the point of the band nearest to x |
| `Vfo.Tune` | main.cpp:185-188 | the retuned frequency always lies in [7000000, 7200000] |
| `Vfo.TuneDirection` | main.cpp:181-188 | from a frequency in the band, positive ticks never lower it, negative ticks never raise it, and one tick either way leaves it unchanged, and inside the band it moves by exactly trunc(count/2)·10^(6−digit) |
| `Vfo.TuneDropsOddTick` | main.cpp:185-186 | an odd tick left over after halving is discarded when the count is reset |
| `Vfo.NextDigit` | main.cpp:193-197 | a press moves the cursor from d to d + 1, wrapping 6 to 1, and keeps it in [1,6] |
| `Vfo.Presses` | main.cpp:191-198 | any number of presses keeps the cursor in [1,6] |
| `Vfo.PressesCycle` | main.cpp:191-198 | n presses move the cursor n places round the cycle of six digits |
| `Vfo.FrontPanel.constructor` | main.cpp:157-158 | the static initial values of the globals and saved_enc (counter 0, saved code 0, both flags false) with frequency 7000000 in the band and the cursor on digit 6 |
| `Vfo.FrontPanel.LoopStep` | main.cpp:178-200 | with more than one pending tick the frequency becomes Tune(value, old digit, count) and the count is reset, otherwise both are untouched; a pending press advances the cursor with NextDigit and clears the flag; the redraw flag is true exactly when either branch ran; the band and cursor invariant is kept |
| `Audio.NextPos` | audio.cpp:47-51 | the uint32_t advance of the phase never exceeds the wrapped sum, and one subtraction of pos_max brings it below pos_max whenever that sum is below twice pos_max |
| `Audio.NextPosIsModular` | audio.cpp:47-51 | with pos < pos_max, step < pos_max and pos_max <= 2^31, pos + step does not overflow and the new phase is (pos + step) mod pos_max, still below pos_max |
| `Audio.NextPosNeedsHeadroom` | audio.cpp:47-51 | without that headroom the 32-bit sum wraps and the phase differs from (pos + step) mod pos_max |
| `Audio.TableIndex` | audio.cpp:45 | pos >> 16 is the block of 0x10000 phase values holding pos, and it is below 2048 for every phase below pos_max |
| `Audio.StepFits` | audio.cpp:18-20 | with step = 0x200000 and pos_max = 0x8000000 the sum never overflows and the phase stays below pos_max |
| `Audio.PosAfter` | audio.cpp:47-51 | the phase after any number of frames stays below pos_max |
| `Audio.PosAfterSucc` | audio.cpp:47-51 | one more frame applies one more advance to the phase |
| `Audio.PosAfterClosedForm` | audio.cpp:47-51 | after n frames the phase is (pos + n * step) mod pos_max |
| `Audio.PeriodIs64` | audio.cpp:18-20 | step divides pos_max 64 times, so the phase returns to its start after 64 frames |
| `Audio.NoShorterPeriod` | audio.cpp:18-20 | no earlier frame count returns the phase to its start |
| `Audio.NextPosKeepsGrid` | audio.cpp:47-51 | a phase that is a whole number of steps stays one |
| `Audio.ToneGenerator.constructor` | audio.cpp:19 | start-up phase 0 over a 2048-entry table |
| `Audio.ToneGenerator.GetAudioFrame` | audio.cpp:43-53 | returns the table entry at pos >> 16 of the old phase and advances the phase by NextPos, keeping it below pos_max |
| `Audio.AudioBuffer.constructor` | audio.cpp:114-119 | a taken buffer: its sample storage, with `max_sample_count` no larger than the storage and `sample_count` not yet set |
| `Audio.UpdateBuffer` | audio.cpp:107-120 | when no buffer is available nothing changes; otherwise samples[i] for every i below max_sample_count is the table entry at the phase after i frames, the samples past it are untouched, the phase has advanced max_sample_count frames, and sample_count equals max_sample_count |

## Left out

- Vfo.FrontPanel.EncoderCallback: `encoder_count` is an unbounded integer. The 32-bit wrap of `std::atomic<int>` after 2^31 unconsumed ticks is not modelled.
- Vfo.FrontPanel.LoopStep: it reads `encoder_count` once. The source reads `encoder_count` at main.cpp:181, 183 and 185 and stores 0 at main.cpp:186. The count applied at 185 may differ from the one tested at 181, and ticks arriving between the read at 185 and the store at 186 are lost. Interrupts that run during the step are not modelled.
- Vfo.Tune: the source computes `value + (count / 2) * pow(10, …)` in `double` and converts back to `uint64_t`. Every value in reach is an integer below 2^53, so the model uses exact integer arithmetic. If the sum were negative, that conversion would be undefined in C++. The model clamps such a sum to 7000000.
- The 50 ms confirmation alarm (`add_alarm_in_ms`) and the concurrency between interrupts and the loop are left out. `HandleSwitch` is the alarm handler, and the caller gives it the pin level.
- Vfo.LatchStep: the press flag follows the code and rises on pin level 1. With the pull-up set at main.cpp:114 and a switch to ground, that level is the released one. The model takes no position on the wiring.
- The hardware set-up in `main()` is I/O and is left out: I2C, GPIO and IRQ configuration, the LED `blink`, and `reset_usb_boot`.
- The SSD1306 display, the `drawDisplay` lambda and the `printf` calls are foreign library calls and output. The `update` result of `LoopStep` stands for the redraw.
- The Si5351 synthesizer calls are a foreign driver. In the shown code the tuned `value` is never sent to the synthesizer.
- Audio.ToneGenerator.GetAudioFrame: it returns the raw table entry. The scaling `(vol * table[i]) >> 8`, the `+ 0x7FFF` offset and the conversion to `int16_t` are not modelled. Only the phase and the index are.
- The sine table construction with `cosf` (audio.cpp:35-38) is floating point. The table is an arbitrary 2048-entry `array<int>` given to the constructor.
- `start_audio` and `init_audio` (audio.cpp:26-41, 63-105) only build the table and set up the Pico audio library and DMA; `take_audio_buffer`/`give_audio_buffer` are library calls. `UpdateBuffer` receives the result of the non-blocking take (null when no buffer is free). The hand-back to the pool is not modelled.
- `update_audio_buffer` only binds `update_buffer` to `get_audio_frame`. `UpdateBuffer` takes the tone generator as its callback directly.
- `step` and `pos_max` are globals that nothing writes after start-up, so they are module constants. `NextPos` and `NextPosIsModular` are stated for any step and bound.
- ema.h (`IntervalEMA`) is `double` arithmetic over a steady clock, and no modelled file uses it. audio.h holds only declarations.
