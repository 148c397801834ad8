/** When a signal is given: the exact condition for every step of every run, and what it means
    for a blocked instrument.
 */
module SignalGates {
  import opened Basics
  import opened Buckets
  import opened Patterns
  import opened RollingBase
  import opened Retest
  import opened SignalMachine
  import opened SignalRuns
  import opened SignalStory

  /** The time of day lies in the window, its end excluded. */
  predicate During(w: Window, t: int) { w.start * MINUTE <= t % DAY < w.end * MINUTE }

  /** A time in no blocked window and in some probable one. */
  predicate Tradable(cfg: Config, t: int) {
    (forall w :: w in cfg.blocked ==> !During(w, t)) && exists w :: w in cfg.probable && During(w, t)
  }

  lemma TradableIff(cfg: Config, t: int)
    ensures TradingWindow(t, cfg.blocked, cfg.probable).0 <==> Tradable(cfg, t)
    ensures FirstInside(cfg.blocked, MinuteOfDay(t)).Some? <==> exists w :: w in cfg.blocked && During(w, t)
    ensures FirstInside(cfg.probable, MinuteOfDay(t)).Some? <==> exists w :: w in cfg.probable && During(w, t)
  {
    forall w ensures HasMinute(w, MinuteOfDay(t)) <==> During(w, t) { HasMinuteIff(w, t); }
    FirstInsideFinds(cfg.blocked, MinuteOfDay(t));
    FirstInsideFinds(cfg.probable, MinuteOfDay(t));
    TradingWindowMeaning(t, cfg.blocked, cfg.probable);
  }

  /** The half of the base a direction may enter in, the middle included. */
  predicate InOwnHalf(d: Direction, base: Base, price: real) {
    if d == Bearish then price - base.low <= base.high - price else base.high - price <= price - base.low
  }

  /** A zone is armed and the next candle is still among its twelve. */
  predicate Waiting(m: Machine) {
    IsArmed(m.trigger) && m.trigger.value.candlesWaited < 12
  }

  /** Everything a candle must satisfy to be the entry of a signal.  BLOCKED is not part of it. */
  predicate PassesGates(cfg: Config, m: Machine, c: Candle) {
    && Waiting(m) && Touches(c, m.trigger.value.fvg) && Tradable(cfg, c.openTime)
    && m.pending.Some? && m.engine.base.Some?
    && InOwnHalf(m.pending.value.direction, m.engine.base.value, c.close)
  }

  lemma WatchSignalsIff(cfg: Config, m: Machine, c: Candle)
    requires Inv(m) && IsArmed(m.trigger)
    ensures WatchRetest(cfg, m, c).decision.Some? <==> PassesGates(cfg, m, c)
  {
    TradableIff(cfg, c.openTime);
    BiasMeaning(m.pending.value.direction, m.engine.base.value.high, m.engine.base.value.low, c.close);
  }

  lemma StepSignalsIff(cfg: Config, m: Machine, c: Candle)
    requires Inv(m)
    ensures LtfStep(cfg, m, c).decision.Some? <==> PassesGates(cfg, m, c)
  {
    var m1 := m.(history := Suffix(m.history + [c], HISTORY_LIMIT), record := VoidReset(m.record, c));
    if IsArmed(m.trigger) {
      WatchSignalsIff(cfg, m1, c);
      assert LtfStep(cfg, m, c) == WatchRetest(cfg, m1, c);
    } else if Idle(m, c) {
      BlockedIsIdle(cfg, m, c);
    } else {
      UnarmedStep(cfg, m, c);
    }
  }

  /** Step `k` of any run gives a signal exactly when its candle passes every gate. */
  lemma SignalIff(cfg: Config, r: InstrumentState, ins: seq<Input>, k: nat)
    requires k < |ins|
    ensures At(cfg, r, ins, k).decision.Some? <==> ins[k].Ltf? && PassesGates(cfg, Run(cfg, r, ins[..k]), ins[k].c)
  {
    SweepsConserved(cfg, r, ins[..k]);
    if ins[k].Ltf? { StepSignalsIff(cfg, Run(cfg, r, ins[..k]), ins[k].c); }
  }

  /** A step that leaves the instrument BLOCKED gives a signal exactly when the retest was armed
      before and its candle passes the gates: the flag stops only what is not yet armed. */
  lemma BlockedStepSignalsIff(cfg: Config, r: InstrumentState, ins: seq<Input>, k: nat)
    requires k < |ins| && ins[k].Ltf? && At(cfg, r, ins, k).machine.record.voidBlocked
    ensures At(cfg, r, ins, k).decision.Some? <==> PassesGates(cfg, Run(cfg, r, ins[..k]), ins[k].c)
    ensures !IsArmed(Run(cfg, r, ins[..k]).trigger) ==>
      At(cfg, r, ins, k).events == [] && !IsArmed(At(cfg, r, ins, k).machine.trigger)
  {
    SignalIff(cfg, r, ins, k);
    var m, c := Run(cfg, r, ins[..k]), ins[k].c;
    LtfFrame(cfg, m, c);
    if !IsArmed(m.trigger) { BlockedIsIdle(cfg, m, c); }
  }

  // ---------------------------------------------------------------- what an armed step reports

  /** The retest triggers on this candle. */
  predicate Triggers(m: Machine, c: Candle) { Waiting(m) && Touches(c, m.trigger.value.fvg) }

  /** The reports of an armed step: trigger, staleness, and why a signal was filtered. */
  ghost predicate Reports(cfg: Config, m: Machine, c: Candle, es: seq<Event>) {
    var t := c.openTime;
    && (RetestTriggered(t) in es <==> Triggers(m, c))
    && (RetestStale(t) in es <==> IsArmed(m.trigger) && m.trigger.value.candlesWaited >= 12)
    && ((exists w :: SignalFiltered(t, InBlockedWindow(w)) in es) <==>
          Triggers(m, c) && exists w :: w in cfg.blocked && During(w, t))
    && (SignalFiltered(t, OutsideWindows) in es <==>
          && Triggers(m, c) && (forall w :: w in cfg.blocked ==> !During(w, t))
          && forall w :: w in cfg.probable ==> !During(w, t))
    && (forall d :: SignalFiltered(t, AgainstBias(d)) in es <==>
          && Triggers(m, c) && Tradable(cfg, t) && m.pending.Some? && m.engine.base.Some?
          && d == m.pending.value.direction && !InOwnHalf(d, m.engine.base.value, c.close))
  }

  lemma FinalizeReports(cfg: Config, m: Machine, c: Candle)
    requires m.pending.Some? && m.trigger.Some? && m.engine.base.Some?
    ensures var es, t := Finalize(cfg, m, c).events, c.openTime;
      && ((exists w :: SignalFiltered(t, InBlockedWindow(w)) in es) <==> exists w :: w in cfg.blocked && During(w, t))
      && (SignalFiltered(t, OutsideWindows) in es <==>
            (forall w :: w in cfg.blocked ==> !During(w, t)) && forall w :: w in cfg.probable ==> !During(w, t))
      && (forall d :: SignalFiltered(t, AgainstBias(d)) in es <==>
            Tradable(cfg, t) && d == m.pending.value.direction && !InOwnHalf(d, m.engine.base.value, c.close))
      && RetestTriggered(t) !in es && RetestStale(t) !in es
  {
    var es, t := Finalize(cfg, m, c).events, c.openTime;
    TradableIff(cfg, t);
    BiasMeaning(m.pending.value.direction, m.engine.base.value.high, m.engine.base.value.low, c.close);
    if w :| w in cfg.blocked && During(w, t) {
      assert es[0] == SignalFiltered(t, InBlockedWindow(FirstInside(cfg.blocked, MinuteOfDay(t)).value));
    }
  }

  lemma WatchReports(cfg: Config, m: Machine, c: Candle)
    requires Inv(m) && IsArmed(m.trigger)
    ensures Reports(cfg, m, c, WatchRetest(cfg, m, c).events)
  {
    var (trigger, fired) := CheckStep(m.trigger, c);
    if fired {
      var es := Finalize(cfg, m.(trigger := trigger), c).events;
      FinalizeReports(cfg, m.(trigger := trigger), c);
      assert WatchRetest(cfg, m, c).events == [RetestTriggered(c.openTime)] + es;
      assert forall e :: e in [RetestTriggered(c.openTime)] + es <==> e == RetestTriggered(c.openTime) || e in es;
    }
  }

  /** Step `k` of any run reports a trigger, a stale retest and a filtered signal exactly when, and for
      the reason that, it should; a candle that triggers and is not filtered signals. */
  lemma ReportsIff(cfg: Config, r: InstrumentState, ins: seq<Input>, k: nat)
    requires k < |ins| && ins[k].Ltf? && IsArmed(Run(cfg, r, ins[..k]).trigger)
    ensures Reports(cfg, Run(cfg, r, ins[..k]), ins[k].c, At(cfg, r, ins, k).events)
  {
    var m, c := Run(cfg, r, ins[..k]), ins[k].c;
    SweepsConserved(cfg, r, ins[..k]);
    var m1 := m.(history := Suffix(m.history + [c], HISTORY_LIMIT), record := VoidReset(m.record, c));
    WatchReports(cfg, m1, c);
    assert LtfStep(cfg, m, c) == WatchRetest(cfg, m1, c);
  }

  ghost predicate PassedAs(es: seq<Event>, d: SignalDecision) {
    forall t, direction, sl :: SignalPassed(t, direction, sl) in es <==>
      t == d.entry.openTime && direction == d.direction && sl == d.structuralSl
  }

  /** A signal is announced with its own time, direction and stop, and nothing is announced else. */
  lemma PassedIff(cfg: Config, r: InstrumentState, ins: seq<Input>, k: nat)
    requires k < |ins| && ins[k].Ltf? && IsArmed(Run(cfg, r, ins[..k]).trigger)
    ensures var s := At(cfg, r, ins, k);
      if s.decision.Some? then PassedAs(s.events, s.decision.value)
      else forall t, direction, sl :: SignalPassed(t, direction, sl) !in s.events
  {
    var m, c := Run(cfg, r, ins[..k]), ins[k].c;
    SweepsConserved(cfg, r, ins[..k]);
    var m1 := m.(history := Suffix(m.history + [c], HISTORY_LIMIT), record := VoidReset(m.record, c));
    WatchPassed(cfg, m1, c);
    assert LtfStep(cfg, m, c) == WatchRetest(cfg, m1, c);
  }

  lemma WatchPassed(cfg: Config, m: Machine, c: Candle)
    requires Inv(m) && IsArmed(m.trigger)
    ensures var s := WatchRetest(cfg, m, c);
      if s.decision.Some? then PassedAs(s.events, s.decision.value)
      else forall t, direction, sl :: SignalPassed(t, direction, sl) !in s.events
  {
  }

  // ---------------------------------------------------------------- candles still to come

  /** Some candle could still be an entry at some time of day. */
  ghost predicate CanSignal(cfg: Config, m: Machine) {
    Waiting(m) && exists t :: Tradable(cfg, t)
  }

  function Midpoint(b: Base): real { (b.high + b.low) / 2.0 }

  lemma OwnHalf(d: Direction, b: Base, price: real)
    ensures InOwnHalf(d, b, price) <==> if d == Bearish then price <= Midpoint(b) else price >= Midpoint(b)
  {
  }

  /** The smallest candle that trades at `p` and closes at `close`. */
  function Probe(t: int, p: real, close: real): (c: Candle)
    ensures WellFormed(c) && c.close == close && c.openTime == t
    ensures c.low == Min(p, close) && c.high == Max(p, close)
  {
    Candle("", 3, t, p, Max(p, close), Min(p, close), close, 1)
  }

  /** A signal is still possible exactly when a zone waits and some minute is tradable: a candle
      that reaches the zone and closes at the middle of the base passes every other gate. */
  lemma CanSignalIff(cfg: Config, r: InstrumentState, ins: seq<Input>)
    ensures (exists c :: WellFormed(c) && LtfStep(cfg, Run(cfg, r, ins), c).decision.Some?)
       <==> CanSignal(cfg, Run(cfg, r, ins))
  {
    var m := Run(cfg, r, ins);
    SweepsConserved(cfg, r, ins);
    forall c ensures LtfStep(cfg, m, c).decision.Some? ==> CanSignal(cfg, m) { StepSignalsIff(cfg, m, c); }
    if CanSignal(cfg, m) {
      ZoneIsProper(cfg, r, ins);
      var t :| Tradable(cfg, t);
      MidpointEnters(cfg, m, t);
    }
  }

  /** The candle that reaches the zone and closes at the middle of the base. */
  function MidpointProbe(m: Machine, t: int): Candle
    requires IsArmed(m.trigger) && m.engine.base.Some?
  {
    Probe(t, m.trigger.value.fvg.gapLow, Midpoint(m.engine.base.value))
  }

  lemma MidpointEnters(cfg: Config, m: Machine, t: int)
    requires Inv(m) && Waiting(m) && Tradable(cfg, t) && m.trigger.value.fvg.gapLow < m.trigger.value.fvg.gapHigh
    ensures WellFormed(MidpointProbe(m, t)) && LtfStep(cfg, m, MidpointProbe(m, t)).decision.Some?
  {
    OwnHalf(m.pending.value.direction, m.engine.base.value, Midpoint(m.engine.base.value));
    StepSignalsIff(cfg, m, MidpointProbe(m, t));
  }

  /** An armed machine's zone is a proper interval. */
  lemma ZoneIsProper(cfg: Config, r: InstrumentState, ins: seq<Input>)
    requires IsArmed(Run(cfg, r, ins).trigger)
    ensures var g := Run(cfg, r, ins).trigger.value.fvg; g.gapLow < g.gapHigh
  {
    StoryHolds(cfg, r, ins);
  }

  /** The level lies between the middle of the base and the zone, so that no candle can reach
      both without trading at it. */
  predicate LevelBetween(d: Direction, b: Base, g: FairValueGap, level: real) {
    if d == Bearish then Midpoint(b) <= level <= g.gapLow else g.gapHigh <= level <= Midpoint(b)
  }

  predicate BlockedAt(m: Machine, level: real) { m.record.voidBlocked && m.record.voidLevel == Some(level) }

  /** A candle that leaves the block standing gives no signal. */
  predicate Silent(cfg: Config, m: Machine, c: Candle) {
    WellFormed(c) && LtfStep(cfg, m, c).machine.record.voidBlocked ==> LtfStep(cfg, m, c).decision.None?
  }

  lemma BetweenSilences(cfg: Config, m: Machine, level: real, c: Candle)
    requires Inv(m) && IsArmed(m.trigger) && BlockedAt(m, level)
    requires LevelBetween(m.pending.value.direction, m.engine.base.value, m.trigger.value.fvg, level)
    ensures Silent(cfg, m, c)
  {
    LtfFrame(cfg, m, c);
    StepSignalsIff(cfg, m, c);
    OwnHalf(m.pending.value.direction, m.engine.base.value, c.close);
  }

  /** A price inside the zone and a close in the right half, both on one side of the level. */
  lemma PassesLevel(d: Direction, b: Base, g: FairValueGap, level: real) returns (p: real, close: real)
    requires g.gapLow < g.gapHigh && !LevelBetween(d, b, g, level)
    ensures g.gapLow <= p <= g.gapHigh && InOwnHalf(d, b, close)
    ensures (p < level && close < level) || (p > level && close > level)
  {
    var mid := Midpoint(b);
    OwnHalf(d, b, mid);
    if d == Bearish {
      if g.gapLow < level {
        p, close := g.gapLow, Min(mid, level - 1.0);
      } else {
        p, close := g.gapHigh, mid;
      }
    } else if g.gapHigh > level {
      p, close := g.gapHigh, Max(mid, level + 1.0);
    } else {
      p, close := g.gapLow, mid;
    }
    OwnHalf(d, b, close);
  }

  lemma NotBetweenSpeaks(cfg: Config, m: Machine, level: real, t: int)
    requires Inv(m) && BlockedAt(m, level) && Waiting(m) && Tradable(cfg, t)
    requires var g := m.trigger.value.fvg;
      g.gapLow < g.gapHigh && !LevelBetween(m.pending.value.direction, m.engine.base.value, g, level)
    ensures exists c :: !Silent(cfg, m, c)
  {
    var p, close := PassesLevel(m.pending.value.direction, m.engine.base.value, m.trigger.value.fvg, level);
    var c := Probe(t, p, close);
    LtfFrame(cfg, m, c);
    StepSignalsIff(cfg, m, c);
    assert !Silent(cfg, m, c);
  }

  /** When BLOCKED keeps an instrument silent.  At any point of any run that is blocked at
      `level`, no candle that leaves the block standing can give a signal exactly when none could
      anyway, or the level separates the zone from the half of the base the entry must close in. */
  lemma BlockSilencesIff(cfg: Config, r: InstrumentState, ins: seq<Input>, level: real)
    requires BlockedAt(Run(cfg, r, ins), level)
    ensures var m := Run(cfg, r, ins);
      (forall c :: Silent(cfg, m, c)) <==>
      || !CanSignal(cfg, m)
      || (m.pending.Some? && m.engine.base.Some?
          && LevelBetween(m.pending.value.direction, m.engine.base.value, m.trigger.value.fvg, level))
  {
    var m := Run(cfg, r, ins);
    SweepsConserved(cfg, r, ins);
    if !CanSignal(cfg, m) {
      forall c ensures Silent(cfg, m, c) { StepSignalsIff(cfg, m, c); }
    } else {
      ZoneIsProper(cfg, r, ins);
      var t :| Tradable(cfg, t);
      if LevelBetween(m.pending.value.direction, m.engine.base.value, m.trigger.value.fvg, level) {
        forall c ensures Silent(cfg, m, c) { BetweenSilences(cfg, m, level, c); }
      } else {
        NotBetweenSpeaks(cfg, m, level, t);
      }
    }
  }
}
