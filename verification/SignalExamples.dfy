/** Concrete runs of the signal machine that show where a claim stops being true. */
module SignalExamples {
  import opened Basics
  import opened Patterns
  import opened RollingBase
  import opened Retest
  import opened SignalMachine
  import opened SignalRuns
  import opened SignalStory

  function SampleConfig(window: int): Config { Config("X", [], [ALL_DAY], 4.0, 1.5, window) }

  const ALL_DAY := Window(0, 1440)

  const SAMPLE_RECORD := InstrumentState("X", Some(103.0), Some(90.0), Some(0), false, None)
  const SAMPLE_BASE := Base(103.0, 90.0, Some(0))

  function SampleCandle(time: int, open: real, high: real, low: real, close: real): Candle {
    Candle("X", 3, time, open, high, low, close, 1)
  }

  const CALM := SampleCandle(0, 95.0, 96.0, 93.0, 94.0)
  const WICK := SampleCandle(0, 95.0, 104.0, 93.0, 95.0)     // sweeps 103, small body
  const PLUNGE := SampleCandle(1, 94.0, 104.0, 60.0, 62.0)   // sweeps 103, large body
  const SLIDE := SampleCandle(1, 94.0, 95.0, 60.0, 62.0)     // large body, no sweep
  const CRASH := SampleCandle(2, 62.0, 70.0, 10.0, 12.0)     // large body, leaves a gap
  const RETURN := SampleCandle(3, 62.0, 80.0, 60.0, 75.0)    // reaches back into the gap

  lemma RangesOf(a: Candle, b: Candle, d: real)
    ensures AverageTrueRange([a]) == a.high - a.low
    ensures AverageTrueRange([a, b]) == (a.high - a.low + (b.high - b.low)) / 2.0
    ensures SwingLow([a], d) == a.low && SwingLow([a, b], d) == Min(a.low, b.low)
  {
    assert [a][1..] == [] && [a, b][1..] == [b] && [b][1..] == [];
    assert TotalRange([a]) == a.high - a.low + TotalRange([]) == a.high - a.low;
    assert TotalRange([a, b]) == a.high - a.low + TotalRange([b]);
    assert |[a]| as real == 1.0;
    assert (a.high - a.low) / 1.0 == a.high - a.low;
  }

  lemma LookbacksOf(a: Candle, b: Candle, c: Candle)
    ensures Lookback([a]) == [] && Lookback([a, b]) == [a] && Lookback([a, b, c]) == [a, b]
  {
  }

  /** The large bearish bodies of the samples displace after one and after two candles. */
  lemma SampleDisplacements(window: int)
    ensures var cfg := SampleConfig(window);
      && Displaced(cfg, [CALM, PLUNGE], PLUNGE).Some? && Displaced(cfg, [CALM, PLUNGE, CRASH], CRASH).Some?
      && Displaced(cfg, [WICK, SLIDE], SLIDE).Some? && Displaced(cfg, [WICK, SLIDE, CRASH], CRASH).Some?
      && Displaced(cfg, [WICK], WICK).None?
  {
    LookbacksOf(CALM, PLUNGE, CRASH);
    LookbacksOf(WICK, SLIDE, CRASH);
    RangesOf(CALM, PLUNGE, PLUNGE.low);
    RangesOf(CALM, PLUNGE, CRASH.low);
    RangesOf(WICK, SLIDE, SLIDE.low);
    RangesOf(WICK, SLIDE, CRASH.low);
  }

  function Sampled(history: seq<Candle>, sweep: SweepEvent, checked: int): Machine {
    Machine(history, Some(sweep), Some(sweep.candle), checked, None, Engine(Some(SAMPLE_BASE), None), SAMPLE_RECORD)
  }

  const PLUNGE_SWEEP := SweepEvent(Bearish, 103.0, PLUNGE, 1.0)
  const WICK_SWEEP := SweepEvent(Bearish, 103.0, WICK, 1.0)

  lemma FirstTwo(window: int)
    ensures var cfg := SampleConfig(window);
      var m1 := Machine([CALM], None, None, 0, None, Engine(Some(SAMPLE_BASE), None), SAMPLE_RECORD);
      && LtfStep(cfg, Fresh(SAMPLE_RECORD), CALM) == StepResult(m1, [], None)
      && LtfStep(cfg, m1, PLUNGE).machine == Sampled([CALM, PLUNGE], PLUNGE_SWEEP, 0)
      && Emits(LtfStep(cfg, m1, PLUNGE).events, SweptK)
  {
    var cfg := SampleConfig(window);
    var m1 := Machine([CALM], None, None, 0, None, Engine(Some(SAMPLE_BASE), None), SAMPLE_RECORD);
    assert [] + [CALM] == [CALM] && [CALM] + [PLUNGE] == [CALM, PLUNGE];
    SampleDisplacements(window);
    var r := Search(cfg, m1.(history := [CALM, PLUNGE]), SAMPLE_BASE, PLUNGE);
    assert LtfStep(cfg, m1, PLUNGE) == r;
    CountsOfCons(r.events[0], r.events[1..]);
    assert r.events == [r.events[0]] + r.events[1..];
  }

  lemma FirstTwoWick()
    ensures var cfg := SampleConfig(1);
      var m1 := Sampled([WICK], WICK_SWEEP, 0);
      && LtfStep(cfg, Fresh(SAMPLE_RECORD), WICK).machine == m1
      && Emits(LtfStep(cfg, Fresh(SAMPLE_RECORD), WICK).events, SweptK)
      && LtfStep(cfg, m1, SLIDE).machine == Sampled([WICK, SLIDE], WICK_SWEEP, 1)
      && !Emits(LtfStep(cfg, m1, SLIDE).events, SweptK)
  {
    var cfg := SampleConfig(1);
    var m1 := Sampled([WICK], WICK_SWEEP, 0);
    assert [] + [WICK] == [WICK] && [WICK] + [SLIDE] == [WICK, SLIDE];
    SampleDisplacements(1);
    var r := LtfStep(cfg, Fresh(SAMPLE_RECORD), WICK);
    CountsOfCons(r.events[0], r.events[1..]);
    assert r.events == [r.events[0]] + r.events[1..];
    var q := LtfStep(cfg, m1, SLIDE);
    CountsOfOne(q.events[0]);
    assert q.events == [q.events[0]];
  }

  /** On the third candle the gap is there and the retest is armed. */
  lemma ThirdArms(window: int, a: Candle, b: Candle, sweep: SweepEvent, checked: int)
    requires (a == CALM && b == PLUNGE) || (a == WICK && b == SLIDE)
    ensures var r := LtfStep(SampleConfig(window), Sampled([a, b], sweep, checked), CRASH);
      && r.machine == Sampled([a, b, CRASH], sweep, checked + 1).(
           trigger := Watching(FairValueGap(Bearish, 93.0, 70.0, b.openTime)))
      && Emits(r.events, ArmedK) && !Emits(r.events, SweptK)
  {
    var m := Sampled([a, b], sweep, checked);
    assert [a, b] + [CRASH] == [a, b, CRASH];
    SampleDisplacements(window);
    var r := LtfStep(SampleConfig(window), m, CRASH);
    CountsOfCons(r.events[0], [r.events[1]]);
    CountsOfOne(r.events[1]);
    assert r.events == [r.events[0]] + [r.events[1]];
  }

  lemma RunOfThree(cfg: Config, r: InstrumentState, a: Input, b: Input, c: Input)
    ensures var ins := [a, b, c];
      && Run(cfg, r, ins[..0]) == Fresh(r)
      && Run(cfg, r, ins[..1]) == Step(cfg, Fresh(r), a).machine
      && Run(cfg, r, ins[..2]) == Step(cfg, Run(cfg, r, ins[..1]), b).machine
      && ins[..3] == ins && Front(ins) == ins[..2] && Front(ins[..2]) == ins[..1] && Front(ins[..1]) == ins[..0]
      && Last(ins[..1]) == a && Last(ins[..2]) == b && Last(ins) == c
  {
    var ins := [a, b, c];
    assert Front(ins[..1]) == [] && Front(ins[..2]) == ins[..1];
  }

  /** Sweep and displacement on the second candle: even with no window at all the retest is
      armed one candle later. */
  lemma LateArmingFromSecondCandle(window: int)
    requires window <= 0
    ensures var ins := [Ltf(CALM), Ltf(PLUNGE), Ltf(CRASH)];
      && Emits(At(SampleConfig(window), SAMPLE_RECORD, ins, 2).events, ArmedK)
      && ArmingDelay(SampleConfig(window), SAMPLE_RECORD, ins, 2) == 1
  {
    var cfg, ins := SampleConfig(window), [Ltf(CALM), Ltf(PLUNGE), Ltf(CRASH)];
    RunOfThree(cfg, SAMPLE_RECORD, ins[0], ins[1], ins[2]);
    FirstTwo(window);
    ThirdArms(window, CALM, PLUNGE, PLUNGE_SWEEP, 0);
    assert Latest(cfg, SAMPLE_RECORD, ins[..2], SweptK) == 1;
    assert Latest(cfg, SAMPLE_RECORD, ins, SweptK) == 1;
    assert UnblockedAfter(cfg, SAMPLE_RECORD, ins[..2], 1) == 0;
  }

  /** Sweep on the very first candle, displacement on the second: a window of one arms on the
      second candle after the sweep. */
  lemma LateArmingFromFirstCandle()
    ensures var ins := [Ltf(WICK), Ltf(SLIDE), Ltf(CRASH)];
      && Emits(At(SampleConfig(1), SAMPLE_RECORD, ins, 2).events, ArmedK)
      && ArmingDelay(SampleConfig(1), SAMPLE_RECORD, ins, 2) == 2
  {
    var cfg, ins := SampleConfig(1), [Ltf(WICK), Ltf(SLIDE), Ltf(CRASH)];
    RunOfThree(cfg, SAMPLE_RECORD, ins[0], ins[1], ins[2]);
    FirstTwoWick();
    ThirdArms(1, WICK, SLIDE, WICK_SWEEP, 1);
    assert Latest(cfg, SAMPLE_RECORD, ins[..1], SweptK) == 0;
    assert Latest(cfg, SAMPLE_RECORD, ins[..2], SweptK) == 0;
    assert Latest(cfg, SAMPLE_RECORD, ins, SweptK) == 0;
    assert UnblockedAfter(cfg, SAMPLE_RECORD, ins[..1], 0) == 0;
    assert UnblockedAfter(cfg, SAMPLE_RECORD, ins[..2], 0) == 1;
  }

  ghost predicate ArmsInTime(cfg: Config) {
    forall r: InstrumentState, ins: seq<Input>, k: nat ::
      k < |ins| && Emits(At(cfg, r, ins, k).events, ArmedK) ==> ArmingDelay(cfg, r, ins, k) <= cfg.window
  }

  /** The window bounds the delay exactly when it is two or more.  A displacement on one of the
      first two candles of a machine arms nothing and rejects nothing, so the sweep lives on. */
  lemma WindowBoundsDelayIff(window: int)
    ensures (forall cfg: Config :: cfg.window == window ==> ArmsInTime(cfg)) <==> window >= 2
  {
    if window >= 2 {
      forall cfg: Config | cfg.window == window ensures ArmsInTime(cfg) {
        forall r, ins, k: nat | k < |ins| && Emits(At(cfg, r, ins, k).events, ArmedK)
          ensures ArmingDelay(cfg, r, ins, k) <= cfg.window
        {
          ArmsWithinWindow(cfg, r, ins, k);
        }
      }
    } else {
      if window == 1 { LateArmingFromFirstCandle(); } else { LateArmingFromSecondCandle(window); }
      assert !ArmsInTime(SampleConfig(window));
    }
  }

  /** The first sample run, its zone armed. */
  function ArmedSample(): Machine {
    Sampled([CALM, PLUNGE, CRASH], PLUNGE_SWEEP, 1).(
      trigger := Watching(FairValueGap(Bearish, 93.0, 70.0, PLUNGE.openTime)))
  }

  lemma SampleRunArms()
    ensures Run(SampleConfig(2), SAMPLE_RECORD, [Ltf(CALM), Ltf(PLUNGE), Ltf(CRASH)]) == ArmedSample()
  {
    var cfg, ins := SampleConfig(2), [Ltf(CALM), Ltf(PLUNGE), Ltf(CRASH)];
    RunOfThree(cfg, SAMPLE_RECORD, ins[0], ins[1], ins[2]);
    FirstTwo(2);
    ThirdArms(2, CALM, PLUNGE, PLUNGE_SWEEP, 0);
  }

  function BlockedAndArmed(): Machine {
    ArmedSample().(record := SAMPLE_RECORD.(voidBlocked := true, voidLevel := Some(1000.0)))
  }

  lemma SampleRunBlocks()
    ensures Run(SampleConfig(2), SAMPLE_RECORD, [Ltf(CALM), Ltf(PLUNGE), Ltf(CRASH), SlHit(1000.0)]) == BlockedAndArmed()
  {
    SampleRunArms();
    var all := [Ltf(CALM), Ltf(PLUNGE), Ltf(CRASH), SlHit(1000.0)];
    assert Front(all) == [Ltf(CALM), Ltf(PLUNGE), Ltf(CRASH)];
  }

  /** An armed retest outranks the block: a machine that is and stays BLOCKED can signal. */
  lemma SignalsWhileBlocked()
    ensures exists ins ::
      var m := Run(SampleConfig(2), SAMPLE_RECORD, ins);
      VoidReset(m.record, RETURN).voidBlocked && LtfStep(SampleConfig(2), m, RETURN).decision.Some?
  {
    SampleRunBlocks();
    var m := BlockedAndArmed();
    assert FirstInside([ALL_DAY], 0) == Some(ALL_DAY);
    var m1 := m.(history := Suffix(m.history + [RETURN], HISTORY_LIMIT));
    assert LtfStep(SampleConfig(2), m, RETURN) == WatchRetest(SampleConfig(2), m1, RETURN);
    assert Run(SampleConfig(2), SAMPLE_RECORD, [Ltf(CALM), Ltf(PLUNGE), Ltf(CRASH), SlHit(1000.0)]) == m;
  }
}
