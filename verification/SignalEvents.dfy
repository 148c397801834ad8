/** When a search makes progress: for every step of every run, exactly when a sweep is taken up, its
    window extended, its displacement confirmed, its retest armed, or the sweep rejected.
 */
module SignalEvents {
  import opened Basics
  import opened Patterns
  import opened RollingBase
  import opened Retest
  import opened SignalMachine
  import opened SignalRuns
  import opened SignalStory

  /** The record is still blocked once this candle has been seen. */
  predicate BlockStands(r: InstrumentState, c: Candle) {
    r.voidBlocked && !(r.voidLevel.Some? && c.low <= r.voidLevel.value <= c.high)
  }

  /** A wick through a level of the base with the close back inside. */
  predicate SweepsBase(c: Candle, b: Base) {
    c.close < b.high < c.high || c.low < b.low < c.close
  }

  /** No zone is armed, nothing blocks, a base is known. */
  predicate Searches(m: Machine, c: Candle) {
    !IsArmed(m.trigger) && !BlockStands(m.record, c) && m.engine.base.Some?
  }

  /** The candle sweeps the base and no sweep is pending. */
  predicate TakesUp(m: Machine, c: Candle) {
    Searches(m, c) && m.pending.None? && SweepsBase(c, m.engine.base.value)
  }

  /** The candle is judged: a sweep was pending or begins with it. */
  predicate Judges(m: Machine, c: Candle) {
    Searches(m, c) && (m.pending.Some? || SweepsBase(c, m.engine.base.value))
  }

  /** The up to five candles before the newest. */
  function Recent(all: seq<Candle>): seq<Candle>
    requires all != []
  {
    all[if |all| > 6 then |all| - 6 else 0..|all| - 1]
  }

  /** The newest candle displaces the recent ones. */
  predicate Displacing(cfg: Config, all: seq<Candle>) {
    all != [] && IsDisplacement(Last(all), Recent(all), cfg.multiplier)
  }

  /** The candle two before the newest and the newest share no price. */
  predicate Apart(all: seq<Candle>) {
    |all| >= 3 && (all[|all| - 3].low > Last(all).high || all[|all| - 3].high < Last(all).low)
  }

  /** How many candles after the sweep's own have been checked, this one included. */
  function Checked(m: Machine): int { if m.pending.Some? then m.checked + 1 else 0 }

  /** The five questions about the events of a judged step. */
  datatype Progress = Progress(swept: bool, extended: bool, confirmed: bool, armed: bool, undisplaced: bool, gapless: bool)

  ghost function ProgressOf(es: seq<Event>, time: int): Progress {
    Progress(Emits(es, SweptK), Emits(es, ExtendedK), Emits(es, ConfirmedK), Emits(es, ArmedK),
             SweepRejected(time, NoDisplacement) in es, SweepRejected(time, NoFvg) in es)
  }

  const NO_PROGRESS := Progress(false, false, false, false, false, false)

  function Expected(swept: bool, judged: bool, displacing: bool, apart: bool, three: bool, usedUp: bool): Progress {
    Progress(swept, judged && !displacing && !usedUp, judged && displacing, judged && displacing && apart,
             judged && !displacing && usedUp, judged && displacing && three && !apart)
  }

  lemma RecentIsLookback(h: seq<Candle>)
    requires h != []
    ensures Lookback(h) == Recent(h)
  {
  }

  lemma DisplacedIffDisplacing(cfg: Config, h: seq<Candle>)
    requires h != []
    ensures Displaced(cfg, h, Last(h)).Some? <==> Displacing(cfg, h)
  {
    RecentIsLookback(h);
    DisplacementMeaning(Last(h), Recent(h), cfg.multiplier);
  }

  lemma GapIffApart(h: seq<Candle>)
    requires |h| >= 3
    ensures NewestGap(h).Some? <==> Apart(h)
  {
  }

  lemma JudgeProgress(cfg: Config, m: Machine, c: Candle)
    requires m.history != []
    ensures var d := Displaced(cfg, m.history, c).Some?;
      var three := |m.history| >= 3;
      ProgressOf(Judge(cfg, m, c).events, c.openTime)
        == Expected(false, true, d, three && NewestGap(m.history).Some?, three, m.checked >= cfg.window)
  {
    var es := Judge(cfg, m, c).events;
    if |es| == 1 {
      assert es == [es[0]];
      OneEvent(es, es[0]);
    } else {
      assert es == [es[0]] + [es[1]];
      TwoEvents(es, es[0], es[1]);
    }
  }

  lemma SweptThen(e: Event, es: seq<Event>, time: int)
    requires KindOf(e) == SweptK
    ensures ProgressOf([e] + es, time) == ProgressOf(es, time).(swept := true)
  {
    CountsOfCons(e, es);
  }

  lemma SearchProgress(cfg: Config, m: Machine, base: Base, c: Candle)
    requires m.history != []
    ensures var swept := m.pending.None? && SweepsBase(c, base);
      var d, three := Displaced(cfg, m.history, c).Some?, |m.history| >= 3;
      ProgressOf(Search(cfg, m, base, c).events, c.openTime)
        == Expected(swept, m.pending.Some? || swept, d, three && NewestGap(m.history).Some?, three, Checked(m) >= cfg.window)
  {
    SweepMeaning(c, base.high, base.low);
    var sweep := DetectSweep(c, base.high, base.low);
    if m.pending.Some? {
      JudgeProgress(cfg, m.(checked := m.checked + 1), c);
    } else if sweep.Some? {
      var m1 := m.(pending := sweep, sweepCandle := Some(c), checked := 0);
      JudgeProgress(cfg, m1, c);
      SweptThen(SweepDetected(c.openTime, sweep.value.direction, sweep.value.level, sweep.value.pierce),
                Judge(cfg, m1, c).events, c.openTime);
    }
  }

  lemma WatchProgress(cfg: Config, m: Machine, c: Candle)
    requires Inv(m) && IsArmed(m.trigger)
    ensures ProgressOf(WatchRetest(cfg, m, c).events, c.openTime) == NO_PROGRESS
  {
    var es := WatchRetest(cfg, m, c).events;
    if |es| == 1 {
      assert es == [es[0]];
      OneEvent(es, es[0]);
    } else if |es| == 2 {
      assert es == [es[0]] + [es[1]];
      TwoEvents(es, es[0], es[1]);
    }
  }

  /** What one candle's events must be, from the machine before it and all candles so far. */
  function Due(cfg: Config, m: Machine, all: seq<Candle>, c: Candle): Progress {
    Expected(TakesUp(m, c), Judges(m, c), Displacing(cfg, all), Apart(all), |all| >= 3, Checked(m) >= cfg.window)
  }

  lemma SearchDue(cfg: Config, m: Machine, h: seq<Candle>, c: Candle)
    requires h != [] && Last(h) == c && !IsArmed(m.trigger) && !Idle(m, c)
    ensures var m1 := m.(history := h, record := VoidReset(m.record, c));
      ProgressOf(Search(cfg, m1, m.engine.base.value, c).events, c.openTime) == Due(cfg, m, h, c)
  {
    SearchProgress(cfg, m.(history := h, record := VoidReset(m.record, c)), m.engine.base.value, c);
    DisplacedIffDisplacing(cfg, h);
    if |h| >= 3 { GapIffApart(h); }
  }

  lemma LtfProgress(cfg: Config, m: Machine, c: Candle)
    requires Inv(m)
    ensures ProgressOf(LtfStep(cfg, m, c).events, c.openTime) == Due(cfg, m, Suffix(m.history + [c], HISTORY_LIMIT), c)
  {
    var h := Suffix(m.history + [c], HISTORY_LIMIT);
    var m1 := m.(history := h, record := VoidReset(m.record, c));
    if IsArmed(m.trigger) {
      WatchProgress(cfg, m1, c);
      assert LtfStep(cfg, m, c) == WatchRetest(cfg, m1, c);
    } else if Idle(m, c) {
      BlockedIsIdle(cfg, m, c);
    } else {
      SearchDue(cfg, m, h, c);
      assert LtfStep(cfg, m, c) == Search(cfg, m1, m.engine.base.value, c);
    }
  }

  lemma SuffixSays(cfg: Config, all: seq<Candle>)
    ensures var h := Suffix(all, HISTORY_LIMIT);
      && (Displacing(cfg, h) <==> Displacing(cfg, all)) && (Apart(h) <==> Apart(all)) && (|h| >= 3 <==> |all| >= 3)
  {
    var h := Suffix(all, HISTORY_LIMIT);
    if all != [] {
      assert Recent(h) == Recent(all);
    }
  }

  lemma OtherProgress(cfg: Config, m: Machine, i: Input)
    requires !i.Ltf?
    ensures forall time :: ProgressOf(Step(cfg, m, i).events, time) == NO_PROGRESS
  {
    var es := Step(cfg, m, i).events;
    if es != [] {
      assert es == [es[0]];
      OneEvent(es, es[0]);
    }
  }

  /** Step `k` of any run reports of its search exactly what is due. */
  lemma StepProgress(cfg: Config, r: InstrumentState, ins: seq<Input>, k: nat, time: int)
    requires k < |ins| && (ins[k].Ltf? ==> time == ins[k].c.openTime)
    ensures ProgressOf(At(cfg, r, ins, k).events, time) ==
      if ins[k].Ltf? then Due(cfg, Run(cfg, r, ins[..k]), LtfCandles(ins[..k + 1]), ins[k].c) else NO_PROGRESS
  {
    var pre, m := ins[..k], Run(cfg, r, ins[..k]);
    if ins[k].Ltf? {
      var c := ins[k].c;
      SweepsConserved(cfg, r, pre);
      LtfProgress(cfg, m, c);
      HistoryIsRecent(cfg, r, pre);
      SuffixGrows(LtfCandles(pre), c, HISTORY_LIMIT);
      assert Front(ins[..k + 1]) == pre && Last(ins[..k + 1]) == ins[k];
      SuffixSays(cfg, LtfCandles(ins[..k + 1]));
    } else {
      OtherProgress(cfg, m, ins[k]);
    }
  }

  // ---------------------------------------------------------------- the results, one by one

  /** A sweep is taken up exactly when a candle pierces a level of the base and closes back, while
      nothing is armed, blocked or pending. */
  lemma SweptIff(cfg: Config, r: InstrumentState, ins: seq<Input>, k: nat)
    requires k < |ins|
    ensures Emits(At(cfg, r, ins, k).events, SweptK) <==>
      var m := Run(cfg, r, ins[..k]);
      && ins[k].Ltf? && !IsArmed(m.trigger) && !BlockStands(m.record, ins[k].c)
      && m.engine.base.Some? && m.pending.None? && SweepsBase(ins[k].c, m.engine.base.value)
  {
    StepProgress(cfg, r, ins, k, if ins[k].Ltf? then ins[k].c.openTime else 0);
  }

  /** A retest is armed exactly when a candle is judged, displaces, and the candle two before it is
      out of its reach. */
  lemma ArmedIff(cfg: Config, r: InstrumentState, ins: seq<Input>, k: nat)
    requires k < |ins|
    ensures Emits(At(cfg, r, ins, k).events, ArmedK) <==>
      var all := LtfCandles(ins[..k + 1]);
      ins[k].Ltf? && Judges(Run(cfg, r, ins[..k]), ins[k].c) && Displacing(cfg, all) && Apart(all)
  {
    StepProgress(cfg, r, ins, k, if ins[k].Ltf? then ins[k].c.openTime else 0);
  }

  /** A sweep is rejected for want of a displacement exactly when its candle is judged, does not
      displace and the window is used up; for want of a gap exactly when it displaces and the
      candles are three or more and not apart. */
  lemma RejectedIff(cfg: Config, r: InstrumentState, ins: seq<Input>, k: nat)
    requires k < |ins| && ins[k].Ltf?
    ensures var m, all, c := Run(cfg, r, ins[..k]), LtfCandles(ins[..k + 1]), ins[k].c;
      && (SweepRejected(c.openTime, NoDisplacement) in At(cfg, r, ins, k).events <==>
            Judges(m, c) && !Displacing(cfg, all) && Checked(m) >= cfg.window)
      && (SweepRejected(c.openTime, NoFvg) in At(cfg, r, ins, k).events <==>
            Judges(m, c) && Displacing(cfg, all) && |all| >= 3 && !Apart(all))
  {
    StepProgress(cfg, r, ins, k, ins[k].c.openTime);
  }

  /** The window is extended exactly when a judged candle does not displace and the window is not
      used up; a displacement is confirmed exactly when a judged candle displaces. */
  lemma ExtendedAndConfirmedIff(cfg: Config, r: InstrumentState, ins: seq<Input>, k: nat)
    requires k < |ins| && ins[k].Ltf?
    ensures var m, all, c := Run(cfg, r, ins[..k]), LtfCandles(ins[..k + 1]), ins[k].c;
      && (Emits(At(cfg, r, ins, k).events, ExtendedK) <==>
            Judges(m, c) && !Displacing(cfg, all) && Checked(m) < cfg.window)
      && (Emits(At(cfg, r, ins, k).events, ConfirmedK) <==> Judges(m, c) && Displacing(cfg, all))
  {
    StepProgress(cfg, r, ins, k, ins[k].c.openTime);
  }

  /** What the window counts: the unblocked candles since the sweep's own. */
  lemma CheckedIsUnblocked(cfg: Config, r: InstrumentState, ins: seq<Input>, k: nat)
    requires k < |ins| && ins[k].Ltf? && Judges(Run(cfg, r, ins[..k]), ins[k].c)
    ensures Checked(Run(cfg, r, ins[..k]))
      == UnblockedAfter(cfg, r, ins[..k + 1], Latest(cfg, r, ins[..k + 1], SweptK))
  {
    var pre, m := ins[..k], Run(cfg, r, ins[..k]);
    Upto(ins, k);
    StepReads(cfg, r, pre, ins[k]);
    StoryHolds(cfg, r, pre);
    SweptIff(cfg, r, ins, k);
    NothingAfterLast(cfg, r, ins[..k + 1]);
  }

  // ---------------------------------------------------------------- what the events carry

  /** The price the gap leaves open, and the figures of sweep and displacement. */
  predicate Carries(e: Event, m: Machine, base: Base, all: seq<Candle>, c: Candle)
    requires all != []
  {
    match e
    case SweepDetected(t, d, level, pierce) =>
      && t == c.openTime && pierce > 0.0
      && (if c.close < base.high < c.high then d == Bearish && level == base.high && pierce == c.high - base.high
          else d == Bullish && level == base.low && pierce == base.low - c.low)
    case WindowExtended(t, n) => t == c.openTime && n == Checked(m) + 1
    case DisplacementConfirmed(t, d, ratio, n) =>
      && t == c.openTime && d == (if c.close > c.open then Bullish else Bearish) && n == Checked(m)
      && AverageTrueRange(Recent(all)) > 0.0 && ratio == Abs(c.close - c.open) / AverageTrueRange(Recent(all))
    case SweepRejected(t, _) => t == c.openTime
    case RetestArmed(t, low, high) =>
      && t == c.openTime && |all| >= 3
      && var before := all[|all| - 3];
         if before.low > c.high then low == c.high && high == before.low else low == before.high && high == c.low
    case _ => false
  }

  predicate AllCarry(es: seq<Event>, m: Machine, base: Base, all: seq<Candle>, c: Candle)
    requires all != []
  {
    forall i :: 0 <= i < |es| ==> Carries(es[i], m, base, all, c)
  }

  lemma DisplacedCarries(cfg: Config, h: seq<Candle>, c: Candle)
    requires h != [] && Displaced(cfg, h, c).Some?
    ensures var d, average := Displaced(cfg, h, c).value, AverageTrueRange(Recent(h));
      && d.direction == (if c.close > c.open then Bullish else Bearish)
      && average > 0.0 && d.ratio == Abs(c.close - c.open) / average
  {
    RecentIsLookback(h);
    RatioOfDisplacement(c, Recent(h), SwingHigh(Recent(h), c.high), SwingLow(Recent(h), c.low), cfg.multiplier);
  }

  lemma ConfirmedCarries(cfg: Config, base: Base, was: Machine, h: seq<Candle>, c: Candle)
    requires h != [] && Displaced(cfg, h, c).Some?
    ensures var d := Displaced(cfg, h, c).value;
      Carries(DisplacementConfirmed(c.openTime, d.direction, d.ratio, Checked(was)), was, base, h, c)
  {
    DisplacedCarries(cfg, h, c);
  }

  lemma ArmedCarries(base: Base, was: Machine, h: seq<Candle>, c: Candle)
    requires |h| >= 3 && Last(h) == c && NewestGap(h).Some?
    ensures Carries(RetestArmed(c.openTime, NewestGap(h).value.gapLow, NewestGap(h).value.gapHigh), was, base, h, c)
  {
  }

  lemma BothCarry(es: seq<Event>, e: Event, f: Event, m: Machine, base: Base, all: seq<Candle>, c: Candle)
    requires all != [] && es == [e, f] && Carries(e, m, base, all, c) && Carries(f, m, base, all, c)
    ensures AllCarry(es, m, base, all, c)
  {
  }

  lemma JudgeCarries(cfg: Config, m: Machine, base: Base, was: Machine, c: Candle)
    requires m.history != [] && Last(m.history) == c && m.checked == Checked(was)
    ensures AllCarry(Judge(cfg, m, c).events, was, base, m.history, c)
  {
    var es, h, disp := Judge(cfg, m, c).events, m.history, Displaced(cfg, m.history, c);
    if disp.Some? {
      var confirmed := DisplacementConfirmed(c.openTime, disp.value.direction, disp.value.ratio, m.checked);
      assert Carries(confirmed, was, base, h, c) by { ConfirmedCarries(cfg, base, was, h, c); }
      if |h| < 3 {
        assert es == [confirmed];
      } else if NewestGap(h).Some? {
        assert es == [confirmed, es[1]];
        ArmedCarries(base, was, h, c);
        BothCarry(es, confirmed, es[1], was, base, h, c);
      } else {
        assert es == [confirmed, es[1]];
        BothCarry(es, confirmed, es[1], was, base, h, c);
      }
    }
  }

  /** Every event of a searching step carries the figures of its own candle. */
  lemma SearchCarries(cfg: Config, m: Machine, base: Base, c: Candle)
    requires m.history != [] && Last(m.history) == c
    ensures AllCarry(Search(cfg, m, base, c).events, m, base, m.history, c)
  {
    var sweep := DetectSweep(c, base.high, base.low);
    if m.pending.Some? {
      JudgeCarries(cfg, m.(checked := m.checked + 1), base, m, c);
    } else if sweep.Some? {
      SweepMeaning(c, base.high, base.low);
      JudgeCarries(cfg, m.(pending := sweep, sweepCandle := Some(c), checked := 0), base, m, c);
    }
  }

  lemma CarriesOver(e: Event, m: Machine, base: Base, all: seq<Candle>, c: Candle)
    requires all != [] && Carries(e, m, base, Suffix(all, HISTORY_LIMIT), c)
    ensures Carries(e, m, base, all, c)
  {
    var h := Suffix(all, HISTORY_LIMIT);
    assert Recent(h) == Recent(all);
    assert |h| >= 3 ==> h[|h| - 3] == all[|all| - 3];
  }

  /** Every event of a searching step of any run carries the figures of its own candle, against all
      candles of the run. */
  lemma EventsCarry(cfg: Config, r: InstrumentState, ins: seq<Input>, k: nat)
    requires k < |ins| && ins[k].Ltf? && Judges(Run(cfg, r, ins[..k]), ins[k].c)
    ensures LtfCandles(ins[..k + 1]) != []
    ensures var m := Run(cfg, r, ins[..k]);
      AllCarry(At(cfg, r, ins, k).events, m, m.engine.base.value, LtfCandles(ins[..k + 1]), ins[k].c)
  {
    var pre, m, c := ins[..k], Run(cfg, r, ins[..k]), ins[k].c;
    assert Front(ins[..k + 1]) == pre && Last(ins[..k + 1]) == ins[k];
    HistoryIsRecent(cfg, r, pre);
    SuffixGrows(LtfCandles(pre), c, HISTORY_LIMIT);
    var all := LtfCandles(ins[..k + 1]);
    var h, base, es := Suffix(all, HISTORY_LIMIT), m.engine.base.value, At(cfg, r, ins, k).events;
    StepCarries(cfg, m, h, c);
    forall i | 0 <= i < |es| ensures Carries(es[i], m, base, all, c) { CarriesOver(es[i], m, base, all, c); }
  }

  lemma StepCarries(cfg: Config, m: Machine, h: seq<Candle>, c: Candle)
    requires h == Suffix(m.history + [c], HISTORY_LIMIT) && Judges(m, c)
    ensures h != [] && AllCarry(LtfStep(cfg, m, c).events, m, m.engine.base.value, h, c)
  {
    var m1 := m.(history := h, record := VoidReset(m.record, c));
    SearchCarries(cfg, m1, m.engine.base.value, c);
    assert LtfStep(cfg, m, c) == Search(cfg, m1, m.engine.base.value, c);
  }
}
