/** strategy/state_machine.py: the signal pipeline of one instrument.

    `LtfStep`, `HtfStep` and `SlHitStep` say on values what one input does; the class below
    does it field by field and is proved against them.  What whole runs do is in SignalRuns.
 */
module SignalMachine {
  import opened Basics
  import opened Patterns
  import opened RollingBase
  import opened Retest

  datatype Config = Config(
    instrument: string,
    blocked: seq<Window>, probable: seq<Window>,
    buffer: real,        // sweep_buffer_points
    multiplier: real,    // atr_multiplier
    window: int)         // displacement_window_candles

  datatype SignalDecision = SignalDecision(
    instrument: string, direction: Direction, sweep: SweepEvent, fvg: FairValueGap,
    entry: Candle, structuralSl: real)

  datatype RejectReason = NoDisplacement | NoFvg

  datatype Event =
    | RollingBaseUpdated(time: int, high: real, low: real)
    | SweepDetected(time: int, direction: Direction, level: real, pierce: real)
    | WindowExtended(time: int, candlesChecked: int)
    | DisplacementConfirmed(time: int, direction: Direction, ratio: real, candlesAfterSweep: int)
    | SweepRejected(time: int, reason: RejectReason)
    | RetestArmed(time: int, gapLow: real, gapHigh: real)
    | RetestTriggered(time: int)
    | RetestStale(time: int)
    | SignalFiltered(time: int, filter: FilterReason)
    | SignalPassed(time: int, direction: Direction, spotSl: real)

  const HISTORY_LIMIT: nat := 30

  datatype Machine = Machine(
    history: seq<Candle>,
    pending: Option<SweepEvent>,
    sweepCandle: Option<Candle>,
    checked: int,                     // _displacement_candles_checked
    trigger: Option<RetestTrigger>,
    engine: Engine,
    record: InstrumentState)

  datatype StepResult = StepResult(machine: Machine, events: seq<Event>, decision: Option<SignalDecision>)

  function Fresh(r: InstrumentState): Machine {
    Machine([], None, None, 0, None, Engine(Restore(r), None), r)
  }

  // ---------------------------------------------------------------- one input, on values

  predicate Spans(c: Candle, level: real) { c.low <= level <= c.high }

  function Unblock(r: InstrumentState): InstrumentState { r.(voidBlocked := false, voidLevel := None) }

  function VoidReset(r: InstrumentState, c: Candle): InstrumentState {
    if r.voidBlocked && r.voidLevel.Some? && Spans(c, r.voidLevel.value) then Unblock(r) else r
  }

  function Forget(m: Machine): Machine {
    m.(pending := None, sweepCandle := None, checked := 0)
  }

  function StructuralSl(cfg: Config, sweep: SweepEvent): real {
    if sweep.direction == Bearish then sweep.candle.high + cfg.buffer else sweep.candle.low - cfg.buffer
  }

  function Finalize(cfg: Config, m: Machine, entry: Candle): StepResult {
    var m' := m.(pending := None);
    if m.pending.None? || m.trigger.None? then StepResult(m', [], None)
    else
      var sweep, fvg := m.pending.value, m.trigger.value.fvg;
      var window := TradingWindow(entry.openTime, cfg.blocked, cfg.probable);
      if !window.0 then StepResult(m', [SignalFiltered(entry.openTime, window.1)], None)
      else if m.engine.base.None? then StepResult(m', [], None)
      else
        var base := m.engine.base.value;
        var aligned := BiasAligned(sweep.direction, HtfBias(base.high, base.low, entry.close));
        if !aligned.0 then StepResult(m', [SignalFiltered(entry.openTime, aligned.1)], None)
        else
          var sl := StructuralSl(cfg, sweep);
          StepResult(m', [SignalPassed(entry.openTime, sweep.direction, sl)],
                     Some(SignalDecision(cfg.instrument, sweep.direction, sweep, fvg, entry, sl)))
  }

  function WatchRetest(cfg: Config, m: Machine, c: Candle): StepResult {
    var (trigger, fired) := CheckStep(m.trigger, c);
    var m' := m.(trigger := trigger);
    if fired then
      var r := Finalize(cfg, m', c);
      r.(events := [RetestTriggered(c.openTime)] + r.events)
    else if !IsArmed(trigger) then StepResult(Forget(m'), [RetestStale(c.openTime)], None)
    else StepResult(m', [], None)
  }

  /** The slice [-6:-1]: up to five candles before the newest. */
  function Lookback(history: seq<Candle>): seq<Candle>
    requires history != []
  {
    Front(Suffix(history, 6))
  }

  function Displaced(cfg: Config, history: seq<Candle>, c: Candle): Option<Displacement>
    requires history != []
  {
    var lookback := Lookback(history);
    DetectDisplacement(c, lookback, SwingHigh(lookback, c.high), SwingLow(lookback, c.low), cfg.multiplier)
  }

  /** The gap of the newest three candles. */
  function NewestGap(history: seq<Candle>): Option<FairValueGap>
    requires |history| >= 3
  {
    var n := |history|;
    DetectFvg(history[n - 3], history[n - 2], history[n - 1])
  }

  /** Displacement and gap for the candle just recorded, with a sweep pending. */
  function Judge(cfg: Config, m: Machine, c: Candle): StepResult
    requires m.history != []
  {
    var disp := Displaced(cfg, m.history, c);
    if disp.None? then
      if m.checked >= cfg.window then StepResult(Forget(m), [SweepRejected(c.openTime, NoDisplacement)], None)
      else StepResult(m, [WindowExtended(c.openTime, m.checked + 1)], None)
    else
      var confirmed := DisplacementConfirmed(c.openTime, disp.value.direction, disp.value.ratio, m.checked);
      if |m.history| < 3 then StepResult(m, [confirmed], None)
      else
        var fvg := NewestGap(m.history);
        if fvg.Some? then
          StepResult(m.(trigger := Watching(fvg.value)),
                     [confirmed, RetestArmed(c.openTime, fvg.value.gapLow, fvg.value.gapHigh)], None)
        else StepResult(Forget(m), [confirmed, SweepRejected(c.openTime, NoFvg)], None)
  }

  function Search(cfg: Config, m: Machine, base: Base, c: Candle): StepResult
    requires m.history != []
  {
    if m.pending.Some? then Judge(cfg, m.(checked := m.checked + 1), c)
    else
      var sweep := DetectSweep(c, base.high, base.low);
      if sweep.None? then StepResult(m, [], None)
      else
        var s := sweep.value;
        var r := Judge(cfg, m.(pending := sweep, sweepCandle := Some(c), checked := 0), c);
        r.(events := [SweepDetected(c.openTime, s.direction, s.level, s.pierce)] + r.events)
  }

  /** One lower-timeframe candle, given the candles remembered including it. */
  function LtfStepOn(cfg: Config, m: Machine, history: seq<Candle>, c: Candle): StepResult
    requires history != []
  {
    Dispatch(cfg, m.(history := history, record := VoidReset(m.record, c)), c)
  }

  /** What a candle that has been remembered leads to. */
  function Dispatch(cfg: Config, m: Machine, c: Candle): StepResult
    requires m.history != []
  {
    if IsArmed(m.trigger) then WatchRetest(cfg, m, c)
    else if m.record.voidBlocked then StepResult(m, [], None)
    else if m.engine.base.None? then StepResult(m, [], None)
    else Search(cfg, m, m.engine.base.value, c)
  }

  function LtfStep(cfg: Config, m: Machine, c: Candle): StepResult {
    LtfStepOn(cfg, m, Suffix(m.history + [c], HISTORY_LIMIT), c)
  }

  function HtfStep(cfg: Config, m: Machine, c: Candle): StepResult {
    var (engine, updated) := EngineStep(m.engine, c);
    if !updated then StepResult(m.(engine := engine), [], None)
    else
      var r := Persist(m.record, BaseOf(c));
      StepResult(m.(engine := engine, record := if r.voidBlocked then Unblock(r) else r),
                 [RollingBaseUpdated(c.openTime, c.high, c.low)], None)
  }

  function SlHitStep(m: Machine, level: real): StepResult {
    StepResult(m.(record := m.record.(voidBlocked := true, voidLevel := Some(level))), [], None)
  }

  // ---------------------------------------------------------------- the object

  class InstrumentStateMachine {
    const cfg: Config
    const store: StateStore
    const rollingBase: RollingBaseEngine
    const retest: RetestWatcher
    var ltfHistory: seq<Candle>
    var pendingSweep: Option<SweepEvent>
    var sweepCandle: Option<Candle>
    var displacementCandlesChecked: int
    var events: seq<Event>  // everything the on_event hook was told

    constructor (cfg: Config, store: StateStore)
      requires forall k :: k in store.state ==> store.state[k].key == k
      modifies store
      ensures this.cfg == cfg && this.store == store && Valid() && fresh(rollingBase) && fresh(retest)
      ensures store.state == if cfg.instrument in old(store.state) then old(store.state)
                             else old(store.state)[cfg.instrument := FreshState(cfg.instrument)]
      ensures View() == Fresh(store.state[cfg.instrument]) && events == []
    {
      this.cfg, this.store := cfg, store;
      rollingBase := new RollingBaseEngine(cfg.instrument, store);
      retest := new RetestWatcher();
      ltfHistory, pendingSweep, sweepCandle, displacementCandlesChecked := [], None, None, 0;
      events := [];
    }

    ghost predicate Valid()
      reads this, store, rollingBase
    {
      rollingBase.store == store && rollingBase.key == cfg.instrument && rollingBase.Valid()
    }

    ghost function View(): Machine
      requires Valid()
      reads this, store, rollingBase, retest
    {
      Machine(ltfHistory, pendingSweep, sweepCandle, displacementCandlesChecked, retest.active,
              rollingBase.View(), store.state[cfg.instrument])
    }

    /** The new state is that of `r`, and every other instrument's record is as before. */
    twostate predicate Became(r: StepResult)
      requires old(Valid()) && Valid()
      reads this, store, rollingBase, retest
    {
      && View() == r.machine
      && events == old(events) + r.events
      && store.state == old(store.state)[cfg.instrument := r.machine.record]
    }

    method CheckVoidReset(c: Candle)
      requires Valid()
      modifies store
      ensures Valid()
      ensures store.state == old(store.state)[cfg.instrument := VoidReset(old(store.state[cfg.instrument]), c)]
    {
      var state := store.Get(cfg.instrument);
      if !state.voidBlocked { return; }
      if state.voidLevel.None? { return; }
      var level := state.voidLevel.value;
      if c.low <= level <= c.high {
        store.Save(Unblock(state));
      }
    }

    method OnSlHit(level: real)
      requires Valid()
      modifies store
      ensures Valid() && Became(SlHitStep(old(View()), level))
    {
      var state := store.Get(cfg.instrument);
      store.Save(state.(voidBlocked := true, voidLevel := Some(level)));
    }

    method OnHtfCandleClose(c: Candle)
      requires Valid() && c.timeframe == 75
      modifies this, store, rollingBase
      ensures Valid() && Became(HtfStep(cfg, old(View()), c))
    {
      var updated := rollingBase.OnHtfCandleClose(c);
      if updated {
        events := events + [RollingBaseUpdated(c.openTime, rollingBase.base.value.high, rollingBase.base.value.low)];
        var state := store.Get(cfg.instrument);
        if state.voidBlocked {
          store.Save(Unblock(state));
        }
      }
    }

    method FinalizeSignal(entry: Candle) returns (d: Option<SignalDecision>)
      requires Valid()
      modifies this
      ensures Valid() && var r := Finalize(cfg, old(View()), entry); Became(r) && d == r.decision
    {
      var sweep, trigger := pendingSweep, retest.active;
      pendingSweep := None;
      if sweep.None? || trigger.None? { return None; }
      var (windowOk, windowReason) := TradingWindow(entry.openTime, cfg.blocked, cfg.probable);
      if !windowOk {
        events := events + [SignalFiltered(entry.openTime, windowReason)];
        return None;
      }
      var base := rollingBase.base;
      if base.None? { return None; }
      var bias := HtfBias(base.value.high, base.value.low, entry.close);
      var (biasOk, biasReason) := BiasAligned(sweep.value.direction, bias);
      if !biasOk {
        events := events + [SignalFiltered(entry.openTime, biasReason)];
        return None;
      }
      var spotSl := StructuralSl(cfg, sweep.value);
      events := events + [SignalPassed(entry.openTime, sweep.value.direction, spotSl)];
      return Some(SignalDecision(cfg.instrument, sweep.value.direction, sweep.value, trigger.value.fvg, entry, spotSl));
    }

    method ClearSweep()
      modifies this
      ensures pendingSweep == None && sweepCandle == None && displacementCandlesChecked == 0
      ensures ltfHistory == old(ltfHistory) && events == old(events)
    {
      pendingSweep, sweepCandle, displacementCandlesChecked := None, None, 0;
    }

    /** Steps 3 and 4: displacement, then the gap. */
    method JudgeDisplacement(c: Candle)
      requires Valid() && ltfHistory != []
      modifies this, retest
      ensures Valid() && Became(Judge(cfg, old(View()), c))
    {
      var disp := Displaced(cfg, ltfHistory, c);
      if disp.None? {
        if displacementCandlesChecked >= cfg.window {
          events := events + [SweepRejected(c.openTime, NoDisplacement)];
          ClearSweep();
        } else {
          events := events + [WindowExtended(c.openTime, displacementCandlesChecked + 1)];
        }
        return;
      }
      ghost var before := events;
      events := events + [DisplacementConfirmed(c.openTime, disp.value.direction, disp.value.ratio,
                                                displacementCandlesChecked)];
      if |ltfHistory| >= 3 {
        var fvg := NewestGap(ltfHistory);
        if fvg.Some? {
          retest.Arm(fvg.value);
          events := events + [RetestArmed(c.openTime, fvg.value.gapLow, fvg.value.gapHigh)];
        } else {
          events := events + [SweepRejected(c.openTime, NoFvg)];
          ClearSweep();
        }
      }
    }

    /** Steps 2 to 4, for a clear instrument with a base and no armed retest. */
    method SearchSetup(base: Base, c: Candle)
      requires Valid() && ltfHistory != []
      modifies this, retest
      ensures Valid() && Became(Search(cfg, old(View()), base, c))
    {
      if pendingSweep.None? {
        var sweep := DetectSweep(c, base.high, base.low);
        if sweep.None? { return; }
        events := events + [SweepDetected(c.openTime, sweep.value.direction, sweep.value.level, sweep.value.pierce)];
        pendingSweep, sweepCandle, displacementCandlesChecked := sweep, Some(c), 0;
      } else {
        displacementCandlesChecked := displacementCandlesChecked + 1;
      }
      JudgeDisplacement(c);
    }

    /** Step 1: an armed retest takes priority over everything else. */
    method CheckRetest(c: Candle) returns (d: Option<SignalDecision>)
      requires Valid() && IsArmed(retest.active)
      modifies this, retest
      ensures Valid() && var r := WatchRetest(cfg, old(View()), c); Became(r) && d == r.decision
    {
      var triggered := retest.Check(c);
      if triggered {
        events := events + [RetestTriggered(c.openTime)];
        d := FinalizeSignal(c);
        return;
      }
      if !retest.IsArmed() {
        events := events + [RetestStale(c.openTime)];
        ClearSweep();
      }
      return None;
    }

    /** Remembers the candle and applies the void reset. */
    method Note(c: Candle)
      requires Valid()
      modifies this, store
      ensures Valid() && events == old(events) && ltfHistory != []
      ensures View() == old(View()).(history := Suffix(old(View()).history + [c], HISTORY_LIMIT),
                                     record := VoidReset(old(View()).record, c))
      ensures store.state == old(store.state)[cfg.instrument := View().record]
    {
      ltfHistory := ltfHistory + [c];
      ltfHistory := Suffix(ltfHistory, HISTORY_LIMIT);
      CheckVoidReset(c);
    }

    method DispatchCandle(c: Candle) returns (d: Option<SignalDecision>)
      requires Valid() && ltfHistory != []
      modifies this, store, retest
      ensures Valid() && var r := Dispatch(cfg, old(View()), c); Became(r) && d == r.decision
    {
      if retest.IsArmed() {
        d := CheckRetest(c);
        return;
      }
      var state := store.Get(cfg.instrument);
      if state.voidBlocked { return None; }
      var base := rollingBase.base;
      if base.None? { return None; }
      SearchSetup(base.value, c);
      return None;
    }

    method OnLtfCandleClose(c: Candle) returns (d: Option<SignalDecision>)
      requires Valid()
      modifies this, store, retest
      ensures Valid() && var r := LtfStep(cfg, old(View()), c); Became(r) && d == r.decision
    {
      Note(c);
      d := DispatchCandle(c);
    }
  }
}
