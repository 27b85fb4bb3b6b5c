/** The C12880 driver object: its configuration, the integration-time
    correction, the pulse primitives and the frame readout, over the board of
    module Hal. */
module Driver {
  import opened Hal
  import opened Protocol

  type u8 = x: int | 0 <= x < 0x100
  type u16 = x: int | 0 <= x < 0x1_0000
  type u32 = x: int | 0 <= x < 0x1_0000_0000

  /** `PULSE_US`: each half of a CLK pulse lasts at least this long. */
  const PulseMicros: nat := 1
  /** Time one complete CLK pulse takes at the least: two halves of
      `PulseMicros`. */
  const PulsePeriod: nat := 2 * PulseMicros
  /** Integration time set by the constructor, in microseconds. */
  const DefaultIntegMicros: u32 := 1000
  /** Written to a channel whose conversion did not arrive in time. */
  const TimeoutReading: u16 := 9998
  /** Written to a channel whose ADC read failed. */
  const FailedReading: u16 := 9999

  function Min(a: nat, b: nat): nat
  {
    if a <= b then a else b
  }

  /** The exposure the integrate phase has to add so that the whole exposure
      is `integTime`: the fixed 48-pulse train after ST goes low already
      takes `minInteg`. The subtraction saturates at zero. */
  function EffectiveDuration(integTime: nat, minInteg: nat): (d: nat)
    ensures d == if integTime >= minInteg then integTime - minInteg else 0
    ensures d <= integTime
  {
    integTime - Min(integTime, minInteg)
  }

  /** The value stored for a channel after its read: the millivolts as a
      16-bit value, or the failure sentinel. */
  function ChannelValue(read: Option<int>): (v: u16)
    ensures read.None? ==> v == FailedReading
    ensures read.Some? && 0 <= read.value < 0x1_0000 ==> v == read.value
    ensures read.Some? ==> (v - read.value) % 0x1_0000 == 0
  {
    match read
    case Some(mv) => mv % 0x1_0000
    case None => FailedReading
  }

  class C12880 {
    /** The GPIO port, timer and ADC the sensor is wired to. */
    const board: Board
    /** `_integ_time`: requested exposure in microseconds. */
    var integTime: u32
    /** `_min_integ_micros`: measured duration of the 48-pulse train. */
    var minInteg: nat
    /** `_timings`: microseconds from the start of the last read to each
        phase boundary. */
    const timings: array<nat>

    ghost predicate Valid()
      reads this
    {
      timings.Length == NumTimings
    }

    constructor (board: Board)
      ensures Valid() && fresh(timings)
      ensures this.board == board
      ensures integTime == DefaultIntegMicros && minInteg == 0
      ensures forall i :: 0 <= i < NumTimings ==> timings[i] == 0
      ensures EffectiveDuration(integTime, minInteg) == integTime
    {
      this.board := board;
      timings := new nat[NumTimings](_ => 0);
      minInteg := 0;
      integTime := 0;
      new;
      SetIntegrationTime(DefaultIntegMicros);
    }

    /** `set_integration_time`: takes effect on the next read. */
    method SetIntegrationTime(usec: u32)
      modifies this`integTime
      ensures integTime == usec
    {
      integTime := usec;
    }

    /** `get_timing`: the timing slot `index`, and 0 for an index past the
        last slot. */
    function GetTiming(index: u8): (r: nat)
      requires Valid()
      reads this, timings
      ensures index < NumTimings ==> r == timings[index]
      ensures index >= NumTimings ==> r == 0
    {
      if index > 4 then 0 else timings[index]
    }

    /** The timing report of the usage example in the class's header
        comment: `get_timing(0)` to `get_timing(9)` in order. The slots past
        the fifth read as 0 instead of past the end of `_timings`. */
    method TimingReport() returns (report: seq<nat>)
      requires Valid()
      ensures |report| == 10
      ensures forall i :: 0 <= i < NumTimings ==> report[i] == timings[i]
      ensures forall i :: NumTimings <= i < |report| ==> report[i] == 0
    {
      report := [];
      for i := 0 to 10
        invariant |report| == i
        invariant forall j :: 0 <= j < i && j < NumTimings ==> report[j] == timings[j]
        invariant forall j :: NumTimings <= j < i ==> report[j] == 0
      {
        report := report + [GetTiming(i)];
      }
    }

    /** `_pulse_clock`: exactly `cycles` complete pulses, CLK low at the end. */
    method PulseClock(cycles: u16)
      modifies board`trace, board`now
      ensures board.trace == old(board.trace) + Pulses(cycles)
      ensures board.now >= old(board.now) + PulsePeriod * cycles
    {
      for i := 0 to cycles
        invariant board.trace == old(board.trace) + Pulses(i)
        invariant board.now >= old(board.now) + PulsePeriod * i
      {
        board.WriteClk(true);
        board.DelayMicroseconds(PulseMicros);
        board.WriteClk(false);
        board.DelayMicroseconds(PulseMicros);
      }
    }

    /** `_pulse_clock_timed`: complete pulses until `durationMicros` have
        elapsed since the timer was first read. `k` is the number of pulses
        issued: none for a zero duration, and each of them starts before
        the duration is over. The timer is read again before every test, so
        a positive duration may still issue no pulse if it is over by the
        first test. */
    method PulseClockTimed(durationMicros: u32) returns (ghost k: nat)
      modifies board`trace, board`now
      ensures board.trace == old(board.trace) + Pulses(k)
      ensures board.now >= old(board.now) + durationMicros
      ensures board.now >= old(board.now) + PulsePeriod * k
      ensures durationMicros == 0 ==> k == 0
      ensures k > 0 ==> PulsePeriod * (k - 1) < durationMicros
    {
      var start := board.Micros();
      var now := board.Micros();
      var elapsed := now - start;
      k := 0;
      while elapsed < durationMicros
        invariant start >= old(board.now)
        invariant elapsed == board.now - start
        invariant elapsed >= PulsePeriod * k
        invariant board.trace == old(board.trace) + Pulses(k)
        invariant k > 0 ==> PulsePeriod * (k - 1) < durationMicros
        decreases durationMicros - elapsed
      {
        board.WriteClk(true);
        board.DelayMicroseconds(PulseMicros);
        board.WriteClk(false);
        board.DelayMicroseconds(PulseMicros);
        k := k + 1;
        now := board.Micros();
        elapsed := now - start;
      }
    }

    /** `_measure_min_integ_micros`: times the 48 pulses that follow ST going
        low in every read. */
    method MeasureMinInteg() returns (ghost startedAt: nat)
      modifies this`minInteg, board`trace, board`now
      ensures board.trace == old(board.trace) + Pulses(StopSettlePulses)
      ensures old(board.now) <= startedAt
      ensures minInteg == board.now - startedAt
      ensures minInteg >= PulsePeriod * StopSettlePulses
    {
      var start := board.Micros();
      startedAt := start;
      PulseClock(StopSettlePulses);
      var now := board.Micros();
      minInteg := now - start;
    }

    /** `begin`: both lines idle low, then the calibration. */
    method Begin()
      modifies this`minInteg, board`trace, board`now
      ensures board.trace == old(board.trace) + [ClkLow, StLow] + Pulses(StopSettlePulses)
      ensures !ClkIsHigh(board.trace) && !StIsHigh(board.trace)
      ensures PulsePeriod * StopSettlePulses <= minInteg <= board.now - old(board.now)
      ensures integTime == old(integTime)
    {
      board.WriteClk(false);
      board.WriteSt(false);
      ghost var idle := board.trace;
      ghost var measured := MeasureMinInteg();
      AppendLevels(false, false, idle, Pulses(StopSettlePulses));
      PulsesLevels(ClkAfter(false, idle), StAfter(false, idle), StopSettlePulses);
      assert idle == old(board.trace) + [ClkLow] + [StLow];
    }

    /** The readout loop of `read_into`: for each channel in order, wait
        for the next conversion (writing the timeout sentinel if the wait
        runs out), read it into the buffer, then advance the sensor by one
        pulse. Channel `i` gets the `i`-th conversion of the loop. The
        sentinel of a timed-out wait never survives: the read that follows
        always overwrites it. */
    method ReadChannels(buffer: array<u16>)
      requires buffer.Length >= NumChannels
      modifies buffer, board`trace, board`now, board`conversions
      ensures board.trace == old(board.trace) + Readout(NumChannels)
      ensures board.now >= old(board.now) + PulsePeriod * NumChannels
      ensures board.conversions == old(board.conversions) + NumChannels
      ensures forall i :: 0 <= i < NumChannels
                ==> buffer[i] == ChannelValue(board.adc(old(board.conversions) + i).read)
      ensures forall i :: NumChannels <= i < buffer.Length ==> buffer[i] == old(buffer[i])
    {
      for i := 0 to NumChannels
        invariant board.trace == old(board.trace) + Readout(i)
        invariant board.now >= old(board.now) + PulsePeriod * i
        invariant board.conversions == old(board.conversions) + i
        invariant forall j :: 0 <= j < i
                    ==> buffer[j] == ChannelValue(board.adc(old(board.conversions) + j).read)
        invariant forall j :: i <= j < buffer.Length ==> buffer[j] == old(buffer[j])
      {
        var timedOut := board.AwaitConversion();
        if timedOut {
          buffer[i] := TimeoutReading;
        }
        var read := board.AnalogRead();
        match read {
          case Some(mv) => buffer[i] := mv % 0x1_0000;
          case None => buffer[i] := FailedReading;
        }
        PulseClock(1);
        assert Pulses(1) == [ClkHigh, ClkLow];
        ReadoutSucc(i);
      }
    }

    /** The start of a read: the start pulse with ST raised while CLK is
        low, then the three pulses after which integration begins. */
    method StartIntegration()
      modifies board`trace, board`now
      ensures board.trace == old(board.trace) + Pulses(StartPulses) + [StHigh] + Pulses(PreIntegratePulses)
      ensures board.now >= old(board.now) + PulsePeriod * (StartPulses + PreIntegratePulses)
    {
      board.WriteClk(true);
      board.DelayMicroseconds(PulseMicros);
      board.WriteClk(false);
      board.WriteSt(true);
      board.DelayMicroseconds(PulseMicros);
      assert Pulses(StartPulses) == [ClkHigh, ClkLow];
      PulseClock(PreIntegratePulses);
      Assoc(old(board.trace), Pulses(StartPulses) + [StHigh], Pulses(PreIntegratePulses));
    }

    /** The integrate phase of `read_into`, from the start pulse to ST
        going low: the slots 0 and 1 of the timing trace record when
        integration began and ended, in microseconds since `start`. */
    method Integrate(start: nat, duration: u32) returns (ghost k: nat)
      requires Valid()
      requires start <= board.now
      modifies timings, board`trace, board`now
      ensures board.trace == old(board.trace) + IntegrateTrace(k)
      ensures duration == 0 ==> k == 0
      ensures k > 0 ==> PulsePeriod * (k - 1) < duration
      ensures timings[0] >= old(board.now) - start + PulsePeriod * (StartPulses + PreIntegratePulses)
      ensures timings[1] >= timings[0] + duration
      ensures timings[1] == board.now - start
      ensures forall i :: 2 <= i < NumTimings ==> timings[i] == old(timings[i])
    {
      StartIntegration();
      ghost var started := board.trace;
      var now := board.Micros();
      timings[0] := now - start;
      k := PulseClockTimed(duration);
      board.WriteSt(false);
      now := board.Micros();
      timings[1] := now - start;
      Assoc(started, Pulses(k), [StLow]);
    }

    /** The settle phase of `read_into`: the 48 pulses after ST goes low and
        the 40 more before the first pixel is ready; slots 2 and 3 of the
        timing trace record their ends. */
    method Settle(start: nat)
      requires Valid()
      requires start <= board.now
      modifies timings, board`trace, board`now
      ensures board.trace == old(board.trace) + SettleTrace()
      ensures timings[2] >= old(board.now) - start + PulsePeriod * StopSettlePulses
      ensures timings[3] >= timings[2] + PulsePeriod * ReadyPulses
      ensures timings[3] == board.now - start
      ensures forall i :: 0 <= i < NumTimings && i != 2 && i != 3 ==> timings[i] == old(timings[i])
    {
      PulseClock(StopSettlePulses);
      var now := board.Micros();
      timings[2] := now - start;
      PulseClock(ReadyPulses);
      now := board.Micros();
      timings[3] := now - start;
    }

    /** `read_into`: one frame. The start pulse and ST high, three pulses to
        the start of integration, the integrate pulses, ST low, the 48 and
        40 settle pulses, then for each channel one ADC read and one advance
        pulse. `k` is the number of integrate pulses and `startedAt` the time
        `start_micros` the timing slots count from. */
    method ReadInto(buffer: array<u16>) returns (ghost k: nat, ghost startedAt: nat)
      requires Valid()
      requires buffer.Length >= NumChannels
      modifies buffer, timings, board`trace, board`now, board`conversions
      ensures board.trace == old(board.trace) + ReadTrace(k)
      ensures EffectiveDuration(integTime, minInteg) == 0 ==> k == 0
      ensures k > 0 ==> PulsePeriod * (k - 1) < EffectiveDuration(integTime, minInteg)
      ensures !StIsHigh(old(board.trace))
              ==> Exposed(false, board.trace)
                  == Exposed(false, old(board.trace)) + PreIntegratePulses + k
      ensures !ClkIsHigh(board.trace) && !StIsHigh(board.trace)
      ensures board.conversions == old(board.conversions) + NumChannels
      ensures forall i :: 0 <= i < NumChannels
                ==> buffer[i] == ChannelValue(board.adc(old(board.conversions) + i).read)
      ensures forall i :: NumChannels <= i < buffer.Length ==> buffer[i] == old(buffer[i])
      ensures timings[0] <= timings[1] <= timings[2] <= timings[3] <= timings[4]
      ensures timings[0] >= PulsePeriod * (StartPulses + PreIntegratePulses)
      ensures timings[1] >= timings[0] + EffectiveDuration(integTime, minInteg)
      ensures timings[2] >= timings[1] + PulsePeriod * StopSettlePulses
      ensures timings[3] >= timings[2] + PulsePeriod * ReadyPulses
      ensures timings[4] >= timings[3] + PulsePeriod * NumChannels
      ensures old(board.now) <= startedAt
      ensures timings[4] == board.now - startedAt
      ensures integTime == old(integTime) && minInteg == old(minInteg)
    {
      var duration := EffectiveDuration(integTime, minInteg);
      var start := board.Micros();
      startedAt := start;
      k := Integrate(start, duration);
      Settle(start);
      assert board.conversions == old(board.conversions);
      ReadChannels(buffer);
      var now := board.Micros();
      timings[4] := now - start;
      Assoc(old(board.trace), IntegrateTrace(k), SettleTrace());
      Assoc(old(board.trace), IntegrateTrace(k) + SettleTrace(), Readout(NumChannels));
      AppendLevels(false, false, old(board.trace), ReadTrace(k));
      ReadLevels(ClkIsHigh(old(board.trace)), StIsHigh(old(board.trace)), k);
    }
  }
}
