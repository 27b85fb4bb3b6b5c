# C12880 spectrometer driver: protocol model

A Dafny model of `C12880_Class`, the firmware driver for the Hamamatsu
C12880 micro-spectrometer (firmware/c12880.cpp and firmware/c12880.h), with
proofs of the promises its readout protocol makes.

The hardware is reduced to what the protocol can observe:

- **Lines.** Every write to the CLK and ST lines is appended to a ghost trace
  of events (`ClkHigh`, `ClkLow`, `StHigh`, `StLow`). A read of an ADC
  conversion of the video line appends `Sample`.
- **Clock.** Time is a monotonic counter `Board.now`. `micros()` is the
  method `Board.Micros`, which returns the time it reads and may itself
  take time. `delayMicroseconds(us)` promises only that at least `us`
  microseconds pass. A GPIO write, a timer read or an ADC wait or read
  promises only that time does not go backwards. So the number `k` of
  pulses the time-guarded integrate loop issues is left open. It is 0 for a
  zero duration, and every pulse starts before the duration is over.
- **ADC.** The ADC is a board constant `adc: nat -> Conversion` that the
  driver cannot see, indexed by the number of conversions read so far
  (`Board.conversions`). For each conversion it says two things: whether
  the wait for it runs into its timeout, and what the read that follows
  returns (`Some(mV)`, or `None` on failure).

Modules:

- `Hal` (hal.dfy) is the board: lines, timer and ADC.
- `Protocol` (protocol.dfy) holds the expected event sequences. These are
  `Pulses(n)`, `Readout(n)`, and `ReadTrace(k)` for a whole frame, which is
  built from `IntegrateTrace(k)`, `SettleTrace()` and `Readout(288)`. The
  module also has the lemmas about these sequences:
  - how many of each event they contain;
  - the CLK and ST levels after them;
  - how many CLK pulses begin while ST is high (`Exposed`).
- `Driver` (driver.dfy) is the class `C12880` with `integTime`, `minInteg`
  and the five-slot `timings` array. Its methods follow the C++ member
  functions line by line. `read_into` is split into its phases:
  - `StartIntegration` and `Integrate` run up to ST going low;
  - `Settle` runs the 48 and 40 pulses;
  - `ReadChannels` runs the per-channel loop.

  The phases run in the source's order, and each writes its `_timings` slots
  where the source does.

Two behaviours of the code are worth stating up front:

- **Timeout sentinel.** A channel whose conversion times out does not keep
  its sentinel. The timeout writes 9998, but the read that always follows
  overwrites it (c12880.cpp:137-147). A channel therefore holds the
  millivolt reading if that read succeeds and 9999 if it fails.
  `ReadChannels` and `ReadInto` prove this.
- **Reading before calibration.** A read before `begin` is not rejected.
  `ReadInto` has no precondition on calibration: with `minInteg` still 0
  from the constructor, the whole requested time is integrated.

## Model

| member | source | states |
|---|---|---|
| Driver.EffectiveDuration | firmware/c12880.cpp:102 | The integrate duration is `integTime - minInteg` when that is non-negative and 0 otherwise. It never exceeds `integTime`, so the unsigned subtraction cannot wrap. |
| Driver.ChannelValue | firmware/c12880.cpp:143-147 | A failed read stores 9999. A successful read in 0..65535 is stored unchanged. Any other reading is stored modulo 2^16, as the conversion to `uint16_t` does. |
| Driver.C12880.constructor | firmware/c12880.cpp:32-48 | The integration time is 1000 µs and `minInteg` is 0. So until `begin` runs, the effective duration equals the requested time. The five timing slots start at 0. |
| Driver.C12880.SetIntegrationTime | firmware/c12880.h:57 | The integration time becomes `usec`. The body is not in the modelled files, so this setter is an assumption. |
| Driver.C12880.GetTiming | firmware/c12880.h:60-63 | Returns slot `index` for `index <= 4` and 0 for every larger index. It only reads state. |
| Driver.C12880.TimingReport | firmware/c12880.h:39-42 | The usage example's ten `get_timing` calls give the five slots in order, then five zeros. Nothing is read past the end. |
| Driver.C12880.PulseClock | firmware/c12880.cpp:50-62 | Appends exactly `cycles` complete high/low CLK pulses to the trace and nothing else. It takes at least two half-periods per pulse. |
| Driver.C12880.PulseClockTimed | firmware/c12880.cpp:64-72 | Appends `k` complete pulses, and at least `durationMicros` elapse. `k` is 0 when the duration is 0. A positive duration may also give no pulse, because the timer is read again before the first test. Every pulse starts before the duration is over, and the pulses take at least 2 µs each. |
| Driver.C12880.MeasureMinInteg | firmware/c12880.cpp:93-98 | Issues exactly the 48 post-stop pulses. `minInteg` becomes the time from the timer read before them to the read after them, which is at least 96 µs. |
| Driver.C12880.Begin | firmware/c12880.cpp:74-91 | Writes CLK low, then ST low, then the 48-pulse calibration. Both lines end low. `minInteg` is at least 96 µs and at most the time `begin` took. The integration time is unchanged. |
| Driver.C12880.StartIntegration | firmware/c12880.cpp:106-113 | One start pulse, ST raised while CLK is low, then three pulses. Takes at least 8 µs. |
| Driver.C12880.Integrate | firmware/c12880.cpp:114-121 | Adds the integrate phase of the frame trace with `k` timed pulses, then ST low. `k` is 0 for a zero duration, and each pulse starts before the duration is over. Slot 0 is at least 8 µs after the start. Slot 1 is at least `duration` after slot 0 and is the time of ST low. Slots 2 to 4 are untouched. |
| Driver.C12880.Settle | firmware/c12880.cpp:123-129 | Adds 48 then 40 pulses. Slot 2 is at least 96 µs and slot 3 at least a further 80 µs after the preceding point. Slots 0, 1 and 4 are untouched. |
| Driver.C12880.ReadChannels | firmware/c12880.cpp:131-151 | For each of the 288 channels in order: one conversion, then one advance pulse. Channel `i` gets the ADC's next conversion after the `i` before it. `buffer[i]` holds that conversion's reading, or 9999 if the read fails. The 9998 a timed-out wait writes is always overwritten. Entries from 288 on are unchanged. |
| Driver.C12880.ReadInto | firmware/c12880.cpp:100-158 | The trace is exactly the frame `ReadTrace(k)`, with `k` bounded as for `PulseClockTimed` by the effective duration. With ST low before, the frame adds exactly `3 + k` pulses begun while ST is high, and leaves CLK and ST low. All 288 channels are filled as in `ReadChannels`, and nothing past them changes. `timings` is non-decreasing, and each gap is at least its phase's minimum time. Slot 4 is the time from `start_micros`, read at or after the call, to the end of the read. `integTime` and `minInteg` are unchanged. |
| Protocol.PulsesCount | firmware/c12880.cpp:50-62 | A train of `n` pulses holds exactly `n` high and `n` low CLK writes and no other event. |
| Protocol.ReadoutCount | firmware/c12880.cpp:135-151 | The readout of `n` channels holds exactly `n` conversions and `n` CLK high and `n` CLK low writes. |
| Protocol.ReadoutAt | firmware/c12880.cpp:135-151 | The read for channel `i` comes after exactly `i` advance pulses and `i` earlier reads. So channel `i` is read after the sensor has been advanced `i` times. |
| Protocol.PulsesAdd | firmware/c12880.cpp:124-128 | Consecutive pulse trains join into one, so 48 then 40 pulses are the 88 pulses after ST goes low. |
| Protocol.PulsesLevels | firmware/c12880.cpp:50-62 | A pulse train leaves ST as it was and leaves CLK low unless it is empty. All of its pulses are exposed when ST is high, and none when it is low. |
| Protocol.ReadoutLevels | firmware/c12880.cpp:135-151 | The readout leaves ST unchanged and CLK low unless empty. With ST low it exposes nothing. |
| Protocol.ReadCounts | firmware/c12880.cpp:104-151 | A frame issues 380 + `k` CLK pulses, raises ST once, lowers ST once, and samples 288 times. |
| Protocol.ReadLevels | firmware/c12880.cpp:106-124 | Starting with ST low, ST is high over exactly the 3 pre-integration pulses and the `k` integrate pulses. Whatever the levels before the frame, it ends with CLK and ST low. |
| Protocol.ReadTraceShape | firmware/c12880.cpp:104-151 | A frame is one pulse, ST high, an unbroken train of `3 + k` pulses, ST low, 88 pulses, then the 288-channel readout. |
| Protocol.AppendLevels | firmware/c12880.cpp:104-151 | The line levels and the exposed-pulse count of a concatenated trace split at the join. This is what lets the frame be reasoned about phase by phase. |

## Left out

- ADC continuous-mode configuration, `pinMode`, `analogContinuousStart` and `analogContinuousStop` (c12880.cpp:75-85, 134, 152): these are peripheral setup calls into libraries that are not part of this model.
- The interrupt flag `g_isr_adc_done` and its busy-wait (c12880.cpp:25-28, 136-142): interrupt concurrency. The wait is `Board.AwaitConversion`, whose outcome, timed out or not, comes from the ADC constant.
- The timeout test `micros() - _timings[3] > ADC_CONVERSION_TIMEOUT_USEC` (c12880.cpp:137): it compares an absolute time with an offset from the start of the read. Its outcome is left to the ADC constant because it never reaches the buffer.
- Which conversion a read returns: the ADC runs in continuous mode and converts on its own schedule (c12880.cpp:80, 134), and `analogContinuousRead` (c12880.cpp:143) returns a frame it has already finished. The model places each conversion at the read call, `Board.AnalogRead`, and takes its value from the ADC constant. It does not model which pixel's voltage that conversion sampled, so it does not promise that channel `i` holds pixel `i`.
- Real-time behaviour of `delayMicroseconds`, `elapsedMicros` and `micros()`: the clock is an unbounded monotonic counter with lower bounds only.
- The 32-bit wrap-around of `micros()` and of the elapsed-time subtractions: `minInteg` and the timing slots are unbounded `nat`. The timing contracts hold while no wrap occurs.
- Driver.C12880.PulseClockTimed: `k` is bounded from above only through `2 * (k - 1) < durationMicros`. No lower bound on `k` is stated for a positive duration, and neither is an overshoot of at most one half-period. Time spent in timer reads and GPIO writes is not bounded in the model, and a slow timer read can end the loop before its first pulse.
- The GPIO set/clear registers `GPIO.out_w1ts` and `out_w1tc`: only the level written to each line is modelled.
- The fields `_TRG_pin`, `_ST_pin`, `_CLK_pin`, `_VIDEO_pin`, `_VIDEO_chan` and `_clock_delay_micros`: they select hardware or are unused. The model has a single board with one CLK and one ST line.
- Driver.C12880.constructor: the C++ constructor leaves `_timings` uninitialised, which is zeroed only for an object in static storage as in the usage example. The model starts the slots at 0.
- Driver.C12880.SetIntegrationTime: its body is not in the modelled files, so it is assumed to store its argument.
