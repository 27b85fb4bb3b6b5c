/** The readout protocol of the C12880 as the sequence of line events one
    frame produces, and what that sequence guarantees: pulse counts, the
    stretch during which ST is high, the per-channel order of sampling and
    advancing, and the idle state of the lines at the end. */
module Protocol {
  import opened Hal

  /** `C12880_NUM_CHANNELS`: pixels in one frame. */
  const NumChannels: nat := 288
  /** Slots of the timing trace `_timings`. */
  const NumTimings: nat := 5

  /** Pulses in each fixed phase of a read. */
  const StartPulses: nat := 1
  const PreIntegratePulses: nat := 3
  const StopSettlePulses: nat := 48
  const ReadyPulses: nat := 40

  /** `n` complete CLK pulses: a high write followed by a low write, n times. */
  function Pulses(n: nat): (t: seq<Event>)
    ensures |t| == 2 * n
  {
    seq(2 * n, i => if i % 2 == 0 then ClkHigh else ClkLow)
  }

  /** The readout of `n` channels: for each channel one ADC conversion, then
      one pulse that advances the sensor to the next pixel. */
  function Readout(n: nat): (t: seq<Event>)
    ensures |t| == 3 * n
  {
    seq(3 * n, i => if i % 3 == 0 then Sample else if i % 3 == 1 then ClkHigh else ClkLow)
  }

  /** The events from the start of a frame to the end of integration: the
      start pulse, ST high, the three pulses before integration starts, the
      `k` timed integrate pulses and ST low. */
  function IntegrateTrace(k: nat): seq<Event>
  {
    Pulses(StartPulses) + [StHigh] + Pulses(PreIntegratePulses) + Pulses(k) + [StLow]
  }

  /** The 48 pulses after ST goes low and the 40 before the first pixel is
      on the video line. */
  function SettleTrace(): seq<Event>
  {
    Pulses(StopSettlePulses) + Pulses(ReadyPulses)
  }

  /** The events of one frame, phase by phase, when the integrate phase
      issues `k` timed pulses. */
  function ReadTrace(k: nat): seq<Event>
  {
    IntegrateTrace(k) + SettleTrace() + Readout(NumChannels)
  }

  /** Level of CLK after the writes in `t`, when it was at level `high`
      before them. */
  function ClkAfter(high: bool, t: seq<Event>): bool
  {
    if t == [] then high
    else if t[|t| - 1] == ClkHigh then true
    else if t[|t| - 1] == ClkLow then false
    else ClkAfter(high, t[..|t| - 1])
  }

  /** Level of ST after the writes in `t`, when it was at level `high`
      before them. */
  function StAfter(high: bool, t: seq<Event>): bool
  {
    if t == [] then high
    else if t[|t| - 1] == StHigh then true
    else if t[|t| - 1] == StLow then false
    else StAfter(high, t[..|t| - 1])
  }

  /** Levels of the lines after the writes in `t` since power-up, when both
      lines idle low. */
  function ClkIsHigh(t: seq<Event>): bool { ClkAfter(false, t) }
  function StIsHigh(t: seq<Event>): bool { StAfter(false, t) }

  /** The number of CLK pulses in `t` that begin while ST is high, when ST
      was at level `st` before `t`: the pulses during which the sensor
      integrates. */
  function Exposed(st: bool, t: seq<Event>): nat
  {
    if t == [] then 0
    else Exposed(st, t[..|t| - 1])
         + (if t[|t| - 1] == ClkHigh && StAfter(st, t[..|t| - 1]) then 1 else 0)
  }

  lemma Assoc(a: seq<Event>, b: seq<Event>, c: seq<Event>)
    ensures a + (b + c) == a + b + c
  {
  }

  /** How often `e` occurs in `t`. */
  function Count(e: Event, t: seq<Event>): nat
  {
    if t == [] then 0
    else Count(e, t[..|t| - 1]) + (if t[|t| - 1] == e then 1 else 0)
  }

  lemma {:induction false} AppendCount(e: Event, a: seq<Event>, b: seq<Event>)
    ensures Count(e, a + b) == Count(e, a) + Count(e, b)
  {
    if b == [] {
      assert a + b == a;
    } else {
      var v := b[..|b| - 1];
      assert (a + b)[..|a + b| - 1] == a + v;
      assert (a + b)[|a + b| - 1] == b[|b| - 1];
      AppendCount(e, a, v);
    }
  }

  lemma CountOne(e: Event, x: Event)
    ensures Count(e, [x]) == if e == x then 1 else 0
  {
    assert [x][..0] == [];
  }

  /** A pulse train grows by one pulse at its end. */
  lemma PulsesSucc(n: nat)
    ensures Pulses(n + 1) == Pulses(n) + [ClkHigh, ClkLow]
  {
  }

  /** The readout grows by one channel at its end. */
  lemma ReadoutSucc(n: nat)
    ensures Readout(n + 1) == Readout(n) + [Sample, ClkHigh, ClkLow]
  {
  }

  /** A pulse train of n pulses holds n high and n low CLK writes and
      nothing else. */
  lemma {:induction false} PulsesCount(e: Event, n: nat)
    ensures Count(e, Pulses(n)) == if e == ClkHigh || e == ClkLow then n else 0
  {
    if n > 0 {
      PulsesCount(e, n - 1);
      PulsesSucc(n - 1);
      AppendCount(e, Pulses(n - 1), [ClkHigh, ClkLow]);
      AppendCount(e, [ClkHigh], [ClkLow]);
      CountOne(e, ClkHigh);
      CountOne(e, ClkLow);
    }
  }

  /** The readout of n channels holds n conversions, n high and n low CLK
      writes and nothing else. */
  lemma {:induction false} ReadoutCount(e: Event, n: nat)
    ensures Count(e, Readout(n)) == if e == ClkHigh || e == ClkLow || e == Sample then n else 0
  {
    if n > 0 {
      ReadoutCount(e, n - 1);
      ReadoutSucc(n - 1);
      AppendCount(e, Readout(n - 1), [Sample, ClkHigh, ClkLow]);
      AppendCount(e, [Sample], [ClkHigh, ClkLow]);
      AppendCount(e, [ClkHigh], [ClkLow]);
      CountOne(e, Sample);
      CountOne(e, ClkHigh);
      CountOne(e, ClkLow);
    }
  }

  /** Splitting or joining consecutive pulse trains. */
  lemma PulsesAdd(a: nat, b: nat)
    ensures Pulses(a) + Pulses(b) == Pulses(a + b)
  {
  }

  /** In the readout of `n` channels, the read for channel `i` comes after
      exactly `i` advance pulses and `i` earlier reads: channel `i` is read
      after the sensor has been advanced `i` times. */
  lemma ReadoutAt(n: nat, i: nat)
    requires i < n
    ensures Readout(n)[3 * i] == Sample
    ensures Count(ClkHigh, Readout(n)[..3 * i]) == i
    ensures Count(Sample, Readout(n)[..3 * i]) == i
  {
    assert Readout(n)[..3 * i] == Readout(i);
    ReadoutCount(ClkHigh, i);
    ReadoutCount(Sample, i);
  }

  /** One frame issues 1 + 3 + 48 + 40 + 288 = 380 pulses besides the `k`
      integrate pulses, raises and lowers ST once each and samples every
      channel once. */
  lemma ReadCounts(k: nat)
    ensures Count(ClkHigh, ReadTrace(k)) == 380 + k
    ensures Count(ClkLow, ReadTrace(k)) == 380 + k
    ensures Count(StHigh, ReadTrace(k)) == 1
    ensures Count(StLow, ReadTrace(k)) == 1
    ensures Count(Sample, ReadTrace(k)) == NumChannels
  {
    forall e: Event
      ensures Count(e, ReadTrace(k))
           == (if e == ClkHigh || e == ClkLow then 380 + k else 0)
            + (if e == StHigh || e == StLow then 1 else 0)
            + (if e == Sample then NumChannels else 0)
    {
      var l1 := Pulses(StartPulses);
      var l2 := l1 + [StHigh];
      var l3 := l2 + Pulses(PreIntegratePulses);
      var l4 := l3 + Pulses(k);
      var l5 := l4 + [StLow];
      var l6 := l5 + Pulses(StopSettlePulses);
      var l7 := l6 + Pulses(ReadyPulses);
      assert ReadTrace(k) == l7 + Readout(NumChannels);
      PulsesCount(e, StartPulses);
      AppendCount(e, l1, [StHigh]);
      CountOne(e, StHigh);
      AppendCount(e, l2, Pulses(PreIntegratePulses));
      PulsesCount(e, PreIntegratePulses);
      AppendCount(e, l3, Pulses(k));
      PulsesCount(e, k);
      AppendCount(e, l4, [StLow]);
      CountOne(e, StLow);
      AppendCount(e, l5, Pulses(StopSettlePulses));
      PulsesCount(e, StopSettlePulses);
      AppendCount(e, l6, Pulses(ReadyPulses));
      PulsesCount(e, ReadyPulses);
      AppendCount(e, l7, Readout(NumChannels));
      ReadoutCount(e, NumChannels);
    }
  }

  /** ST is high over one unbroken pulse train of 3 + k pulses, preceded by
      the start pulse and followed by 88 settle pulses and the readout. */
  lemma ReadTraceShape(k: nat)
    ensures ReadTrace(k)
         == Pulses(StartPulses) + [StHigh]
            + Pulses(PreIntegratePulses + k)
            + [StLow]
            + Pulses(StopSettlePulses + ReadyPulses)
            + Readout(NumChannels)
  {
    PulsesAdd(PreIntegratePulses, k);
    PulsesAdd(StopSettlePulses, ReadyPulses);
  }

  /** Splitting a trace splits the levels of the lines and the exposed
      pulses at the same point. */
  lemma {:induction false} AppendLevels(clk: bool, st: bool, a: seq<Event>, b: seq<Event>)
    ensures ClkAfter(clk, a + b) == ClkAfter(ClkAfter(clk, a), b)
    ensures StAfter(st, a + b) == StAfter(StAfter(st, a), b)
    ensures Exposed(st, a + b) == Exposed(st, a) + Exposed(StAfter(st, a), b)
  {
    if b == [] {
      assert a + b == a;
    } else {
      var v, e := b[..|b| - 1], b[|b| - 1];
      assert (a + b)[..|a + b| - 1] == a + v;
      assert (a + b)[|a + b| - 1] == e;
      AppendLevels(clk, st, a, v);
    }
  }

  /** One pulse leaves ST alone and is exposed if ST is high. */
  lemma OnePulse(clk: bool, st: bool)
    ensures !ClkAfter(clk, [ClkHigh, ClkLow])
    ensures StAfter(st, [ClkHigh, ClkLow]) == st
    ensures Exposed(st, [ClkHigh, ClkLow]) == if st then 1 else 0
  {
    assert [ClkHigh, ClkLow][..1] == [ClkHigh];
    assert [ClkHigh][..0] == [];
    assert StAfter(st, [ClkHigh]) == st;
    assert Exposed(st, [ClkHigh]) == if st then 1 else 0;
  }

  /** One readout step leaves ST alone and, with ST low, exposes nothing. */
  lemma OneChannel(clk: bool, st: bool)
    ensures !ClkAfter(clk, [Sample, ClkHigh, ClkLow])
    ensures StAfter(st, [Sample, ClkHigh, ClkLow]) == st
    ensures !st ==> Exposed(st, [Sample, ClkHigh, ClkLow]) == 0
  {
    assert [Sample, ClkHigh, ClkLow][..2] == [Sample, ClkHigh];
    assert [Sample, ClkHigh][..1] == [Sample];
    assert [Sample][..0] == [];
    assert StAfter(st, [Sample]) == st;
    assert StAfter(st, [Sample, ClkHigh]) == st;
    assert Exposed(st, [Sample]) == 0;
  }

  /** A pulse train leaves ST where it was and is exposed in full exactly
      when ST is high; it leaves CLK low unless it is empty. */
  lemma {:induction false} PulsesLevels(clk: bool, st: bool, n: nat)
    ensures ClkAfter(clk, Pulses(n)) == (clk && n == 0)
    ensures StAfter(st, Pulses(n)) == st
    ensures Exposed(st, Pulses(n)) == if st then n else 0
  {
    if n > 0 {
      var p := Pulses(n - 1);
      PulsesSucc(n - 1);
      PulsesLevels(clk, st, n - 1);
      AppendLevels(clk, st, p, [ClkHigh, ClkLow]);
      OnePulse(ClkAfter(clk, p), st);
    } else {
      assert Pulses(n) == [];
    }
  }

  /** The readout leaves ST where it was, and with ST low exposes nothing. */
  lemma {:induction false} ReadoutLevels(clk: bool, st: bool, n: nat)
    ensures ClkAfter(clk, Readout(n)) == (clk && n == 0)
    ensures StAfter(st, Readout(n)) == st
    ensures !st ==> Exposed(st, Readout(n)) == 0
  {
    if n > 0 {
      var r := Readout(n - 1);
      ReadoutSucc(n - 1);
      ReadoutLevels(clk, st, n - 1);
      AppendLevels(clk, st, r, [Sample, ClkHigh, ClkLow]);
      OneChannel(ClkAfter(clk, r), st);
    } else {
      assert Readout(n) == [];
    }
  }

  /** A single ST write exposes nothing and sets the level. */
  lemma StWrite(st: bool, e: Event)
    requires e == StHigh || e == StLow
    ensures Exposed(st, [e]) == 0
    ensures StAfter(st, [e]) == (e == StHigh)
  {
    assert [e][..0] == [];
  }

  /** Starting with ST low, one frame keeps ST high over exactly 3 + k
      pulses: the three start-of-integration pulses and the k integrate
      pulses; whatever the levels before it, it leaves CLK and ST low. */
  lemma ReadLevels(clk: bool, st: bool, k: nat)
    ensures !st ==> Exposed(st, ReadTrace(k)) == PreIntegratePulses + k
    ensures !ClkAfter(clk, ReadTrace(k))
    ensures !StAfter(st, ReadTrace(k))
  {
    var l1 := Pulses(StartPulses);
    var l2 := l1 + [StHigh];
    var l3 := l2 + Pulses(PreIntegratePulses);
    var l4 := l3 + Pulses(k);
    var l5 := l4 + [StLow];
    var l6 := l5 + Pulses(StopSettlePulses);
    var l7 := l6 + Pulses(ReadyPulses);
    assert ReadTrace(k) == l7 + Readout(NumChannels);
    PulsesLevels(clk, st, StartPulses);
    AppendLevels(clk, st, l1, [StHigh]);
    StWrite(StAfter(st, l1), StHigh);
    AppendLevels(clk, st, l2, Pulses(PreIntegratePulses));
    PulsesLevels(ClkAfter(clk, l2), true, PreIntegratePulses);
    AppendLevels(clk, st, l3, Pulses(k));
    PulsesLevels(ClkAfter(clk, l3), true, k);
    AppendLevels(clk, st, l4, [StLow]);
    StWrite(true, StLow);
    AppendLevels(clk, st, l5, Pulses(StopSettlePulses));
    PulsesLevels(ClkAfter(clk, l5), false, StopSettlePulses);
    AppendLevels(clk, st, l6, Pulses(ReadyPulses));
    PulsesLevels(ClkAfter(clk, l6), false, ReadyPulses);
    AppendLevels(clk, st, l7, Readout(NumChannels));
    ReadoutLevels(ClkAfter(clk, l7), false, NumChannels);
  }
}
