/** The directions of sweep, displacement and gap.  The code never compares them: the last two
    agree all the same, the first need not.
 */
module SignalDirections {
  import opened Basics
  import opened Patterns
  import opened RollingBase
  import opened Retest
  import opened SignalMachine
  import opened SignalRuns
  import opened SignalStory
  import opened SignalGates
  import opened SignalExamples

  predicate WellFormedInputs(ins: seq<Input>) {
    forall i :: 0 <= i < |ins| && ins[i].Ltf? ==> WellFormed(ins[i].c)
  }

  lemma {:induction false} LtfCandlesWellFormed(ins: seq<Input>)
    requires WellFormedInputs(ins)
    ensures forall i :: 0 <= i < |LtfCandles(ins)| ==> WellFormed(LtfCandles(ins)[i])
  {
    if ins != [] {
      LtfCandlesWellFormed(Front(ins));
      assert Last(ins) == ins[|ins| - 1];
    }
  }

  lemma BeforeIsInLookback(h: seq<Candle>)
    requires |h| >= 3
    ensures |Lookback(h)| >= 2 && Lookback(h)[|Lookback(h)| - 2] == h[|h| - 3]
  {
  }

  lemma DisplacedIff(cfg: Config, h: seq<Candle>, c: Candle)
    requires h != []
    ensures Displaced(cfg, h, c).Some? <==> IsDisplacement(c, Lookback(h), cfg.multiplier)
    ensures Displaced(cfg, h, c).Some? ==> Displaced(cfg, h, c).value.direction == BodyDirection(c)
  {
    DisplacementMeaning(c, Lookback(h), cfg.multiplier);
  }

  /** A candle that closes beyond the one two before it leaves no gap to the other side. */
  lemma GapFollowsBody(cfg: Config, h: seq<Candle>, c: Candle, g: FairValueGap)
    requires Confirms(cfg, h, c, g) && Last(h) == c && WellFormed(h[|h| - 3]) && WellFormed(c)
    ensures g.direction == Displaced(cfg, h, c).value.direction == BodyDirection(c)
  {
    DisplacedIff(cfg, h, c);
    BeforeIsInLookback(h);
    assert h[|h| - 1] == c;
  }

  /** The arming candle behind a signal. */
  lemma SignalGap(cfg: Config, r: InstrumentState, ins: seq<Input>, k: nat, d: SignalDecision)
    requires k < |ins| && At(cfg, r, ins, k).decision == Some(d)
    ensures Latest(cfg, r, ins[..k], ArmedK) < k && GapAt(cfg, ins[..k], Latest(cfg, r, ins[..k], ArmedK), d.fvg)
  {
    SignalProvenance(cfg, r, ins, k);
  }

  lemma GapInPrefix(cfg: Config, ins: seq<Input>, k: nat, j: int, g: FairValueGap)
    requires k <= |ins| && GapAt(cfg, ins[..k], j, g)
    ensures 0 <= j < k && ins[j].Ltf? && Confirms(cfg, LtfCandles(ins[..j + 1]), ins[j].c, g)
  {
    assert ins[..k][..j + 1] == ins[..j + 1];
  }

  /** Input `j` is a displacement against the up to five candles before it. */
  ghost predicate DisplacesAt(cfg: Config, ins: seq<Input>, j: int) {
    && 0 <= j < |ins| && ins[j].Ltf? && LtfCandles(ins[..j + 1]) != []
    && IsDisplacement(ins[j].c, Lookback(LtfCandles(ins[..j + 1])), cfg.multiplier)
  }

  lemma GapDisplaces(cfg: Config, ins: seq<Input>, k: nat, j: int, g: FairValueGap)
    requires k <= |ins| && GapAt(cfg, ins[..k], j, g)
    ensures DisplacesAt(cfg, ins, j)
  {
    GapInPrefix(cfg, ins, k, j, g);
    DisplacedIff(cfg, LtfCandles(ins[..j + 1]), ins[j].c);
  }

  /** Behind every signal of every run there is a displacement: its arming candle. */
  lemma SignalDisplacement(cfg: Config, r: InstrumentState, ins: seq<Input>, k: nat, d: SignalDecision)
    requires k < |ins| && At(cfg, r, ins, k).decision == Some(d)
    ensures DisplacesAt(cfg, ins, Latest(cfg, r, ins[..k], ArmedK))
  {
    SignalGap(cfg, r, ins, k, d);
    GapDisplaces(cfg, ins, k, Latest(cfg, r, ins[..k], ArmedK), d.fvg);
  }

  /** The gap armed at `j` points the way of the displacement there, which is that of its body. */
  ghost predicate GapPointsWithBody(cfg: Config, ins: seq<Input>, j: int, g: FairValueGap) {
    && 0 <= j < |ins| && ins[j].Ltf? && LtfCandles(ins[..j + 1]) != []
    && Displaced(cfg, LtfCandles(ins[..j + 1]), ins[j].c).Some?
    && g.direction == Displaced(cfg, LtfCandles(ins[..j + 1]), ins[j].c).value.direction == BodyDirection(ins[j].c)
  }

  lemma ArmingGapFollowsBody(cfg: Config, ins: seq<Input>, k: nat, j: int, g: FairValueGap)
    requires k <= |ins| && WellFormedInputs(ins[..k]) && GapAt(cfg, ins[..k], j, g)
    ensures GapPointsWithBody(cfg, ins, j, g)
  {
    GapInPrefix(cfg, ins, k, j, g);
    var pre := ins[..j + 1];
    assert forall i :: 0 <= i <= j ==> pre[i] == ins[..k][i];
    LtfCandlesWellFormed(pre);
    assert Last(pre) == ins[j] && pre[j] == ins[j];
    GapFollowsBody(cfg, LtfCandles(pre), ins[j].c, g);
  }

  /** On candles that close within their own range, the gap of every signal points the way of
      its displacement, which is that of the arming candle's body; so it points the way of the
      sweep exactly when that body does. */
  lemma SignalDirectionsIff(cfg: Config, r: InstrumentState, ins: seq<Input>, k: nat, d: SignalDecision)
    requires k < |ins| && At(cfg, r, ins, k).decision == Some(d) && WellFormedInputs(ins[..k])
    ensures var j := Latest(cfg, r, ins[..k], ArmedK);
      && GapPointsWithBody(cfg, ins, j, d.fvg)
      && (d.fvg.direction == d.sweep.direction <==> BodyDirection(ins[j].c) == d.sweep.direction)
  {
    SignalGap(cfg, r, ins, k, d);
    ArmingGapFollowsBody(cfg, ins, k, Latest(cfg, r, ins[..k], ArmedK), d.fvg);
  }

  // ---------------------------------------------------------------- a bullish gap for a bearish sweep

  const RISE := SampleCandle(1, 95.0, 121.0, 94.0, 120.0)
  const SURGE := SampleCandle(2, 121.0, 161.0, 120.0, 160.0)
  const DIP := SampleCandle(3, 100.0, 110.0, 90.0, 95.0)

  lemma RisingDisplacements()
    ensures var cfg := SampleConfig(2);
      && Displaced(cfg, [WICK], WICK).None?
      && Displaced(cfg, [WICK, RISE], RISE).Some? && Displaced(cfg, [WICK, RISE, SURGE], SURGE).Some?
  {
    LookbacksOf(WICK, RISE, SURGE);
    RangesOf(WICK, RISE, RISE.low);
    RangesOf(WICK, RISE, SURGE.low);
    assert [WICK, RISE][1..] == [RISE];
    assert SwingHigh([RISE], SURGE.high) == 121.0 && SwingHigh([WICK, RISE], SURGE.high) == 121.0;
    assert AverageTrueRange([WICK, RISE]) == 19.0;
    assert BodySize(SURGE) / 19.0 > 1.5;
  }

  lemma RisingSteps()
    ensures var cfg := SampleConfig(2);
      && LtfStep(cfg, Fresh(SAMPLE_RECORD), WICK).machine == Sampled([WICK], WICK_SWEEP, 0)
      && LtfStep(cfg, Sampled([WICK], WICK_SWEEP, 0), RISE).machine == Sampled([WICK, RISE], WICK_SWEEP, 1)
      && LtfStep(cfg, Sampled([WICK, RISE], WICK_SWEEP, 1), SURGE).machine == ArmedAbove()
  {
    RisingDisplacements();
    assert [] + [WICK] == [WICK] && [WICK] + [RISE] == [WICK, RISE] && [WICK, RISE] + [SURGE] == [WICK, RISE, SURGE];
  }

  function ArmedAbove(): Machine {
    Sampled([WICK, RISE, SURGE], WICK_SWEEP, 2).(trigger := Watching(FairValueGap(Bullish, 120.0, 104.0, RISE.openTime)))
  }

  const RISING_RUN := [Ltf(WICK), Ltf(RISE), Ltf(SURGE), Ltf(DIP)]

  lemma RisingRun()
    ensures RISING_RUN[3] == Ltf(DIP) && Run(SampleConfig(2), SAMPLE_RECORD, RISING_RUN[..3]) == ArmedAbove()
  {
    RunOfThree(SampleConfig(2), SAMPLE_RECORD, Ltf(WICK), Ltf(RISE), Ltf(SURGE));
    RisingSteps();
    assert RISING_RUN[..3] == [Ltf(WICK), Ltf(RISE), Ltf(SURGE)];
  }

  lemma DipSignals()
    ensures var d := LtfStep(SampleConfig(2), ArmedAbove(), DIP).decision;
      d.Some? && d.value.direction == Bearish && d.value.fvg.direction == Bullish
  {
    assert During(ALL_DAY, DIP.openTime);
    StepSignalsIff(SampleConfig(2), ArmedAbove(), DIP);
    var m1 := ArmedAbove().(history := Suffix(ArmedAbove().history + [DIP], HISTORY_LIMIT));
    assert LtfStep(SampleConfig(2), ArmedAbove(), DIP) == WatchRetest(SampleConfig(2), m1, DIP);
  }

  /** They can differ: a bearish signal on a bullish gap. */
  lemma SweepAgainstGap()
    ensures exists ins, k: nat ::
      && k < |ins| && WellFormedInputs(ins) && At(SampleConfig(2), SAMPLE_RECORD, ins, k).decision.Some?
      && var d := At(SampleConfig(2), SAMPLE_RECORD, ins, k).decision.value;
         d.direction == Bearish && d.fvg.direction == Bullish
  {
    RisingRun();
    DipSignals();
    assert At(SampleConfig(2), SAMPLE_RECORD, RISING_RUN, 3) == LtfStep(SampleConfig(2), ArmedAbove(), DIP);
  }
}
