/** The hardware the C12880 driver talks to, reduced to what the protocol
    observes: the writes to the CLK and ST lines and the ADC conversions, as a
    trace of events, and a monotonic microsecond clock. */
module Hal {

  /** One observable action on the sensor's lines. `Sample` is one read of
      an ADC conversion of the video line. */
  datatype Event = ClkHigh | ClkLow | StHigh | StLow | Sample

  datatype Option<T> = None | Some(value: T)

  /** What the ADC does for one conversion of the video line: whether the
      wait for it runs into the timeout, and what the read that follows
      returns (`None` when it fails). */
  datatype Conversion = Conversion(waitTimedOut: bool, read: Option<int>)

  /** The board: the GPIO port, the microsecond timer and the ADC. Every
      operation only moves the clock forward. */
  class Board {
    /** Everything written to the lines so far, oldest first. */
    ghost var trace: seq<Event>
    /** The time in microseconds. */
    var now: nat
    /** What the ADC does for its `n`-th conversion, counting from 0. It is
        not known to the driver. */
    const adc: nat -> Conversion
    /** The number of conversions read so far. */
    var conversions: nat

    constructor (adc: nat -> Conversion)
      ensures trace == [] && now == 0
      ensures this.adc == adc && conversions == 0
    {
      trace := [];
      now := 0;
      this.adc := adc;
      conversions := 0;
    }

    /** `micros()`: the time when the timer is read. Reading it takes some
        time, but no amount of it is promised. */
    method Micros() returns (t: nat)
      modifies this`now
      ensures now >= old(now)
      ensures t == now
    {
      t := now;
    }

    /** A write to the CLK bit of the GPIO set/clear registers. A write takes
        some time, but no amount of it is promised. */
    method WriteClk(high: bool)
      modifies this`trace, this`now
      ensures trace == old(trace) + [if high then ClkHigh else ClkLow]
      ensures now >= old(now)
    {
      trace := trace + [if high then ClkHigh else ClkLow];
    }

    /** A write to the ST bit of the GPIO set/clear registers. */
    method WriteSt(high: bool)
      modifies this`trace, this`now
      ensures trace == old(trace) + [if high then StHigh else StLow]
      ensures now >= old(now)
    {
      trace := trace + [if high then StHigh else StLow];
    }

    /** `delayMicroseconds(us)`: returns once at least `us` microseconds have
        passed; how much longer it takes is not promised. */
    method DelayMicroseconds(us: nat)
      modifies this`now
      ensures now >= old(now) + us
    {
      now := now + us;
    }

    /** The wait for the next conversion to complete: whether it ran into
        its timeout. The conversion is not consumed. */
    method AwaitConversion() returns (timedOut: bool)
      modifies this`now
      ensures timedOut == adc(conversions).waitTimedOut
      ensures now >= old(now)
    {
      timedOut := adc(conversions).waitTimedOut;
    }

    /** `analogContinuousRead`: reads the next conversion of the video line,
        in millivolts, or `None` when the read fails. */
    method AnalogRead() returns (r: Option<int>)
      modifies this`trace, this`now, this`conversions
      ensures r == adc(old(conversions)).read
      ensures conversions == old(conversions) + 1
      ensures trace == old(trace) + [Sample]
      ensures now >= old(now)
    {
      r := adc(conversions).read;
      conversions := conversions + 1;
      trace := trace + [Sample];
    }
  }
}
