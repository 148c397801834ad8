/** From a signal to its simulated trade: when the stop lies on the losing side. */
module SignalTrades {
  import opened Basics
  import opened Patterns
  import opened RollingBase
  import opened SignalMachine
  import opened SignalRuns
  import opened SignalStory
  import opened SignalGates
  import opened SignalExamples
  import opened SpotTrades

  /** The middle of the current base lies on the profit side of the pending sweep's stop. */
  predicate StopClearsMidpoint(cfg: Config, m: Machine) {
    && m.pending.Some? && m.engine.base.Some?
    && var sl, mid := StructuralSl(cfg, m.pending.value), Midpoint(m.engine.base.value);
       if m.pending.value.direction == Bearish then mid < sl else sl < mid
  }

  /** A signal on this candle has its stop on the losing side. */
  predicate SafeEntry(cfg: Config, m: Machine, c: Candle) {
    WellFormed(c) && LtfStep(cfg, m, c).decision.Some? ==> StopOnLossSide(LtfStep(cfg, m, c).decision.value)
  }

  /** What a signal takes over from the machine. */
  lemma SignalOf(cfg: Config, m: Machine, c: Candle)
    requires Inv(m) && LtfStep(cfg, m, c).decision.Some?
    ensures var d := LtfStep(cfg, m, c).decision.value;
      && d.entry == c && d.direction == m.pending.value.direction
      && d.structuralSl == StructuralSl(cfg, m.pending.value)
  {
    SignalNeedsArmed(cfg, m, Ltf(c));
    var m1 := m.(history := Suffix(m.history + [c], HISTORY_LIMIT), record := VoidReset(m.record, c));
    assert LtfStep(cfg, m, c) == WatchRetest(cfg, m1, c);
    WatchDoes(cfg, m1, c);
  }

  lemma ClearedStopIsSafe(cfg: Config, m: Machine, c: Candle)
    requires Inv(m) && StopClearsMidpoint(cfg, m) && LtfStep(cfg, m, c).decision.Some?
    ensures StopOnLossSide(LtfStep(cfg, m, c).decision.value)
  {
    StepSignalsIff(cfg, m, c);
    SignalOf(cfg, m, c);
    OwnHalf(m.pending.value.direction, m.engine.base.value, c.close);
  }

  lemma UnclearedStopIsNot(cfg: Config, m: Machine, t: int)
    requires Inv(m) && Waiting(m) && Tradable(cfg, t) && m.trigger.value.fvg.gapLow < m.trigger.value.fvg.gapHigh
    requires !StopClearsMidpoint(cfg, m)
    ensures !SafeEntry(cfg, m, MidpointProbe(m, t))
  {
    MidpointEnters(cfg, m, t);
    SignalOf(cfg, m, MidpointProbe(m, t));
  }

  /** At any point of any run, the stop of whatever signal the next candle may give is on the
      losing side exactly when none can be given or the stop clears the middle of the base. */
  lemma StopSideIff(cfg: Config, r: InstrumentState, ins: seq<Input>)
    ensures var m := Run(cfg, r, ins);
      (forall c :: SafeEntry(cfg, m, c)) <==> !CanSignal(cfg, m) || StopClearsMidpoint(cfg, m)
  {
    var m := Run(cfg, r, ins);
    SweepsConserved(cfg, r, ins);
    if !CanSignal(cfg, m) {
      forall c ensures SafeEntry(cfg, m, c) { StepSignalsIff(cfg, m, c); }
    } else if StopClearsMidpoint(cfg, m) {
      forall c ensures SafeEntry(cfg, m, c) {
        if LtfStep(cfg, m, c).decision.Some? { ClearedStopIsSafe(cfg, m, c); }
      }
    } else {
      ZoneIsProper(cfg, r, ins);
      var t :| Tradable(cfg, t);
      UnclearedStopIsNot(cfg, m, t);
    }
  }

  /** A signal whose stop clears the middle of the base loses exactly one R when it is stopped out
      directly. */
  lemma StopOutCostsOneR(cfg: Config, r: InstrumentState, ins: seq<Input>, k: nat, cs: seq<Candle>, terms: Terms)
    requires k < |ins| && At(cfg, r, ins, k).decision.Some? && StopClearsMidpoint(cfg, Run(cfg, r, ins[..k]))
    ensures var d := At(cfg, r, ins, k).decision.value;
      && StopOnLossSide(d)
      && (Simulate(d, cs, terms).0.outcome == SlDirect ==> Simulate(d, cs, terms).1.rr == -1.0)
  {
    SweepsConserved(cfg, r, ins[..k]);
    SignalNeedsArmed(cfg, Run(cfg, r, ins[..k]), ins[k]);
    ClearedStopIsSafe(cfg, Run(cfg, r, ins[..k]), ins[k].c);
    RByOutcome(At(cfg, r, ins, k).decision.value, cs, terms);
  }

  /** It does so whenever no higher-timeframe break came between sweep and entry. */
  lemma UnchangedBaseClears(cfg: Config, r: InstrumentState, ins: seq<Input>)
    requires var m, i := Run(cfg, r, ins), Latest(cfg, r, ins, SweptK);
      && m.pending.Some? && m.engine.base.Some? && m.engine.base.value.low <= m.engine.base.value.high
      && cfg.buffer >= 0.0 && 0 <= i && Run(cfg, r, ins[..i]).engine.base == m.engine.base
    ensures StopClearsMidpoint(cfg, Run(cfg, r, ins))
  {
    StoryHolds(cfg, r, ins);
    var base, i := Run(cfg, r, ins).engine.base.value, Latest(cfg, r, ins, SweptK);
    SweepMeaning(ins[i].c, base.high, base.low);
  }

  /** The stop of every signal lies beyond the swept level by the whole pierce and the buffer. */
  lemma StopBeyondSweptLevel(cfg: Config, r: InstrumentState, ins: seq<Input>, k: nat)
    requires k < |ins| && At(cfg, r, ins, k).decision.Some?
    ensures var d := At(cfg, r, ins, k).decision.value;
      && d.sweep.pierce > 0.0
      && d.structuralSl == if d.direction == Bearish then d.sweep.level + d.sweep.pierce + cfg.buffer
                           else d.sweep.level - d.sweep.pierce - cfg.buffer
  {
    SignalProvenance(cfg, r, ins, k);
    var pre := ins[..k];
    var i := Latest(cfg, r, pre, SweptK);
    var base := Run(cfg, r, pre[..i]).engine.base.value;
    SweepMeaning(pre[i].c, base.high, base.low);
  }

  const FIRST_HTF := Candle("X", 75, 4, 100.0, 110.0, 100.0, 105.0, 1)
  const BREAKOUT := Candle("X", 75, 5, 105.0, 600.0, 80.0, 590.0, 1)
  const REENTRY := SampleCandle(6, 100.0, 160.0, 80.0, 150.0)

  function AfterBreakout(): Machine {
    ArmedSample().(
      engine := Engine(Some(BaseOf(BREAKOUT)), Some(BREAKOUT)),
      record := Persist(SAMPLE_RECORD, BaseOf(BREAKOUT)))
  }

  lemma BreakoutRun()
    ensures Run(SampleConfig(2), SAMPLE_RECORD,
                [Ltf(CALM), Ltf(PLUNGE), Ltf(CRASH), Htf(FIRST_HTF), Htf(BREAKOUT)]) == AfterBreakout()
  {
    SampleRunArms();
    var four := [Ltf(CALM), Ltf(PLUNGE), Ltf(CRASH), Htf(FIRST_HTF)];
    var five := [Ltf(CALM), Ltf(PLUNGE), Ltf(CRASH), Htf(FIRST_HTF), Htf(BREAKOUT)];
    assert Front(four) == [Ltf(CALM), Ltf(PLUNGE), Ltf(CRASH)] && Front(five) == four;
    StepReads(SampleConfig(2), SAMPLE_RECORD, Front(four), Htf(FIRST_HTF));
    StepReads(SampleConfig(2), SAMPLE_RECORD, four, Htf(BREAKOUT));
  }

  /** After such a break it can fail: a bearish signal whose stop lies below its entry. */
  lemma StopCanBeOnWrongSide()
    ensures exists ins ::
      var d := LtfStep(SampleConfig(2), Run(SampleConfig(2), SAMPLE_RECORD, ins), REENTRY).decision;
      d.Some? && !StopOnLossSide(d.value) && d.value.structuralSl != d.value.entry.close
  {
    BreakoutRun();
    var m := AfterBreakout();
    assert FirstInside([ALL_DAY], 0) == Some(ALL_DAY);
    var m1 := m.(history := Suffix(m.history + [REENTRY], HISTORY_LIMIT));
    assert LtfStep(SampleConfig(2), m, REENTRY) == WatchRetest(SampleConfig(2), m1, REENTRY);
    assert Run(SampleConfig(2), SAMPLE_RECORD, [Ltf(CALM), Ltf(PLUNGE), Ltf(CRASH), Htf(FIRST_HTF), Htf(BREAKOUT)]) == m;
  }
}
