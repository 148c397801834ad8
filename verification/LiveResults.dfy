/** What holds of every run of live trading. */
module LiveResults {
  import opened Basics
  import opened Aggregator
  import opened RollingBase
  import opened LiveTrading
  import opened LiveRuns
  import SignalMachine
  import SignalRuns
  import SignalGates
  import SignalState
  import Positions
  import SignalTrades
  import Session

  /** Trades closed on a day and positions open, over every live run. */
  lemma LiveTradesBounded(g: Setting, es: seq<LiveEvent>)
    requires Proper(g) && g.w.trading.limits.maxTrades >= 1
    ensures var s := LiveRun(g, es).live.session;
      && s.guard.trades + |s.open| <= g.w.trading.limits.maxTrades + |g.w.trading.instruments| - 1
      && Session.OpenOnly(g.w.trading, s)
  {
    SessionIsARun(g, es);
    Session.TradesBounded(g.w.trading, g.today, SessionEvents(g, es));
  }

  /** If no trade loses more than `l`, the day's result stays above the limit and one loss for each
      instrument, over every live run. */
  lemma LiveLossBounded(g: Setting, es: seq<LiveEvent>, l: real)
    requires Proper(g) && l >= 0.0 && Session.MaxLoss(g.w.trading.limits) > 0.0
    requires Session.LossesWithin(g.w.trading, g.today, SessionEvents(g, es), l)
    ensures LiveRun(g, es).live.session.guard.pnl > Session.WorstDay(g.w.trading, l)
  {
    SessionIsARun(g, es);
    Session.DailyLossBounded(g.w.trading, g.today, SessionEvents(g, es), l);
  }

  /** Every sweep an instrument detected live is accounted for. */
  lemma LiveSweepsConserved(g: Setting, es: seq<LiveEvent>, k: string)
    requires Proper(g) && k in g.records
    ensures var cfg, r, ins, m := g.w.signals[k], g.records[k], MachineInputs(g, es, k), LiveRun(g, es).live.machines[k];
      var events := SignalRuns.Events(cfg, r, ins);
      && SignalRuns.Inv(m)
      && SignalRuns.Count(events, SignalRuns.SweptK) ==
           |SignalRuns.Decisions(cfg, r, ins)| + SignalRuns.Count(events, SignalRuns.RejectedK)
           + SignalRuns.Count(events, SignalRuns.FilteredK) + SignalRuns.Count(events, SignalRuns.StaleK)
           + SignalRuns.Pending(m)
  {
    MachinesAreRuns(g, es, k);
    SignalRuns.SweepsConserved(g.w.signals[k], g.records[k], MachineInputs(g, es, k));
  }

  lemma {:induction false} NoStopOutInputs(w: Wiring, cs: seq<Candle>, k: string)
    ensures forall i :: 0 <= i < |Inputs(w, cs, k)| ==> !Inputs(w, cs, k)[i].SlHit?
  {
    if cs != [] { NoStopOutInputs(w, Front(cs), k); }
  }

  /** Nothing reports a stop-out to the machines, so live trading never blocks an instrument: BLOCKED
      is only ever the block of the stored record, while it stands. */
  lemma LiveNeverBlocks(g: Setting, es: seq<LiveEvent>, k: string)
    requires Proper(g) && k in g.records
    ensures LiveRun(g, es).live.machines[k].record.voidBlocked
       <==> SignalState.RestoredBlock(g.records[k], MachineInputs(g, es, k))
  {
    MachinesAreRuns(g, es, k);
    NoStopOutInputs(g.w, Handled(g, es), k);
    SignalState.NoStopOutNoBlock(g.w.signals[k], g.records[k], MachineInputs(g, es, k));
  }

  // ---------------------------------------------------------------- when a position is opened

  /** The candle's machine gives a signal. */
  predicate SignalsOn(w: Wiring, l: Live, c: Candle)
    requires l.machines.Keys == w.signals.Keys
  {
    && c.instrument in l.machines && c.timeframe != w.htf && c.timeframe == w.primaryLtf
    && SignalGates.PassesGates(w.signals[c.instrument], l.machines[c.instrument], c)
  }

  /** The guard, the selector and the broker let the trade through. */
  predicate Executes(w: Wiring, l: Live, c: Candle, a: Answers, spotSl: real) {
    && Session.Allows(w.trading.limits, Session.RollDay(l.session.guard, a.today))
    && a.choice.Some? && a.entryOk
    && Positions.FirstFill(a.polls, Session.PlanOf(w.trading, c.instrument, c.close, spotSl, a.choice.value).quantity).Some?
  }

  /** The stop of the signal the candle gives, if it gives one. */
  function StopOf(w: Wiring, l: Live, c: Candle): real
    requires l.machines.Keys == w.signals.Keys && c.instrument in l.machines
  {
    var sweep := l.machines[c.instrument].pending;
    if sweep.None? then 0.0 else SignalMachine.StructuralSl(w.signals[c.instrument], sweep.value)
  }

  lemma DecisionOn(w: Wiring, l: Live, c: Candle)
    requires l.machines.Keys == w.signals.Keys && c.instrument in l.machines
    requires SignalRuns.Inv(l.machines[c.instrument]) && c.timeframe != w.htf && c.timeframe == w.primaryLtf
    ensures var d := SignalMachine.LtfStep(w.signals[c.instrument], l.machines[c.instrument], c).decision;
      && (d.Some? <==> SignalsOn(w, l, c))
      && (d.Some? ==> d.value.structuralSl == StopOf(w, l, c))
  {
    SignalGates.StepSignalsIff(w.signals[c.instrument], l.machines[c.instrument], c);
    if SignalsOn(w, l, c) { SignalTrades.SignalOf(w.signals[c.instrument], l.machines[c.instrument], c); }
  }

  lemma PrimaryStep(w: Wiring, l: Live, c: Candle, a: Answers)
    requires l.machines.Keys == w.signals.Keys && c.instrument in l.machines
    requires c.timeframe != w.htf && c.timeframe == w.primaryLtf
    ensures CandleStep(w, l, c, a).session == AfterClose(w.trading, l.session, c, true,
      SignalMachine.LtfStep(w.signals[c.instrument], l.machines[c.instrument], c).decision, a)
  {
  }

  lemma OtherStep(w: Wiring, l: Live, c: Candle, a: Answers)
    requires l.machines.Keys == w.signals.Keys
    requires c.instrument !in l.machines || c.timeframe == w.htf || c.timeframe != w.primaryLtf
    ensures CandleStep(w, l, c, a).session == l.session
  {
  }

  /** At any point of any live run, with no position held for the instrument: a closed candle opens
      one exactly when it is of the entry timeframe, passes every gate of its machine, and the
      guard, the selector and the broker let the trade through. */
  lemma LiveEntryIff(w: Wiring, l: Live, c: Candle, a: Answers, r: InstrumentState, ins: seq<SignalRuns.Input>)
    requires l.machines.Keys == w.signals.Keys && c.instrument !in l.session.open
    requires c.instrument in l.machines ==> l.machines[c.instrument] == SignalRuns.Run(w.signals[c.instrument], r, ins)
    ensures c.instrument in CandleStep(w, l, c, a).session.open <==>
      SignalsOn(w, l, c) && Executes(w, l, c, a, StopOf(w, l, c))
  {
    if c.instrument in l.machines && c.timeframe != w.htf && c.timeframe == w.primaryLtf {
      assert SignalRuns.Inv(l.machines[c.instrument]) by { SignalRuns.SweepsConserved(w.signals[c.instrument], r, ins); }
      DecisionOn(w, l, c);
      PrimaryStep(w, l, c, a);
      var d := SignalMachine.LtfStep(w.signals[c.instrument], l.machines[c.instrument], c).decision;
      if d.Some? {
        Session.SignalOpensIff(w.trading, l.session.(spot := l.session.spot[c.instrument := c.close]), c.instrument,
                               a.today, d.value.structuralSl, a.choice, a.entryOk, a.polls);
      }
    } else {
      OtherStep(w, l, c, a);
    }
  }
}
