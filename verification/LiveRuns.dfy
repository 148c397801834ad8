/** Whole runs of live trading: ticks of underlyings and contracts, reconnects and the switches of the
    guard, in any interleaving.  Each signal machine and the session are runs of their own, so what
    is proved of those holds live.
 */
module LiveRuns {
  import opened Basics
  import opened Aggregator
  import opened RollingBase
  import opened Routing
  import opened LiveTrading
  import SignalMachine
  import SignalRuns
  import Session

  /** How a session is started: its wiring, the registered aggregators, the stored records, the date. */
  datatype Setting = Setting(w: Wiring, keys: seq<Key>, records: map<string, InstrumentState>, today: int)

  predicate Proper(g: Setting) {
    && g.records.Keys == g.w.signals.Keys && g.w.signals.Keys <= g.w.trading.instruments
    && Distinct(g.keys) && (forall k :: k in g.keys ==> k.1 >= 1)
    && g.w.htf != g.w.primaryLtf
  }

  function Start(g: Setting): (s: System)
    requires Proper(g)
    ensures Wired(g.w, g.keys, s)
  {
    System(map k | k in g.keys :: AggState(None, []),
           Live(map k | k in g.records :: SignalMachine.Fresh(g.records[k]),
                Session.State(Session.FreshGuard(g.today), map[], map[])))
  }

  function LiveRun(g: Setting, es: seq<LiveEvent>): (s: System)
    requires Proper(g)
    ensures Wired(g.w, g.keys, s)
  {
    if es == [] then Start(g) else LiveStep(g.w, g.keys, LiveRun(g, Front(es)), Last(es))
  }

  // ---------------------------------------------------------------- the candles handled

  /** The candles handed to on_close while one event is handled. */
  function HandledAt(g: Setting, s: System, e: LiveEvent): seq<Candle>
    requires Proper(g) && Wired(g.w, g.keys, s)
  {
    match e
    case TickCame(symbol, price, ts, _, _, _) =>
      if Tracked(g.w, s.live.session, symbol) then [] else ClosedInOrder(s.candles, g.keys, symbol, TickFeed(Tick(ts, price)))
    case Reconnected(inst, raw, _) => ClosedInOrder(s.candles, g.keys, inst, HistoryFeed(raw))
    case _ => []
  }

  function Handled(g: Setting, es: seq<LiveEvent>): seq<Candle>
    requires Proper(g)
  {
    if es == [] then [] else Handled(g, Front(es)) + HandledAt(g, LiveRun(g, Front(es)), Last(es))
  }

  function InputOf(w: Wiring, c: Candle): seq<SignalRuns.Input> {
    if c.timeframe == w.htf then [SignalRuns.Htf(c)]
    else if c.timeframe == w.primaryLtf then [SignalRuns.Ltf(c)]
    else []
  }

  /** What the machine of instrument `k` is shown of the candles. */
  function Inputs(w: Wiring, cs: seq<Candle>, k: string): seq<SignalRuns.Input> {
    if cs == [] then [] else Inputs(w, Front(cs), k) + if Last(cs).instrument == k then InputOf(w, Last(cs)) else []
  }

  lemma {:induction false} InputsConcat(w: Wiring, a: seq<Candle>, b: seq<Candle>, k: string)
    ensures Inputs(w, a + b, k) == Inputs(w, a, k) + Inputs(w, b, k)
  {
    if b == [] {
      assert a + b == a;
    } else {
      assert Front(a + b) == a + Front(b);
      InputsConcat(w, a, Front(b), k);
    }
  }

  function MachineInputs(g: Setting, es: seq<LiveEvent>, k: string): seq<SignalRuns.Input>
    requires Proper(g)
  {
    Inputs(g.w, Handled(g, es), k)
  }

  // ---------------------------------------------------------------- every machine is a run

  lemma RunInput(cfg: SignalMachine.Config, r: InstrumentState, ins: seq<SignalRuns.Input>, i: SignalRuns.Input)
    ensures SignalRuns.Run(cfg, r, ins + [i]) == SignalRuns.Step(cfg, SignalRuns.Run(cfg, r, ins), i).machine
  {
    assert Front(ins + [i]) == ins;
  }

  lemma CandleMachine(w: Wiring, l: Live, c: Candle, a: Answers, k: string, r: InstrumentState, ins: seq<SignalRuns.Input>)
    requires l.machines.Keys == w.signals.Keys && k in l.machines
    requires l.machines[k] == SignalRuns.Run(w.signals[k], r, ins)
    ensures CandleStep(w, l, c, a).machines[k]
         == SignalRuns.Run(w.signals[k], r, ins + if c.instrument == k then InputOf(w, c) else [])
  {
    var more := if c.instrument == k then InputOf(w, c) else [];
    if more == [] {
      assert ins + more == ins;
    } else {
      assert more == [more[0]];
      RunInput(w.signals[k], r, ins, more[0]);
    }
  }

  lemma {:induction false} CandleMachines(w: Wiring, l: Live, cs: seq<Candle>, answers: Candle -> Answers, k: string,
                                          r: InstrumentState, ins: seq<SignalRuns.Input>)
    requires l.machines.Keys == w.signals.Keys && k in l.machines
    requires l.machines[k] == SignalRuns.Run(w.signals[k], r, ins)
    ensures CandleSteps(w, l, cs, answers).machines[k] == SignalRuns.Run(w.signals[k], r, ins + Inputs(w, cs, k))
  {
    if cs == [] {
      assert ins + Inputs(w, cs, k) == ins;
    } else {
      CandleMachines(w, l, Front(cs), answers, k, r, ins);
      var before := ins + Inputs(w, Front(cs), k);
      CandleMachine(w, CandleSteps(w, l, Front(cs), answers), Last(cs), answers(Last(cs)), k, r, before);
      var more := if Last(cs).instrument == k then InputOf(w, Last(cs)) else [];
      assert before + more == ins + Inputs(w, cs, k);
    }
  }

  /** What one event does to a machine is what the candles it closes do. */
  lemma EventMachine(g: Setting, s: System, e: LiveEvent, k: string, ins: seq<SignalRuns.Input>)
    requires Proper(g) && Wired(g.w, g.keys, s) && k in g.records
    requires s.live.machines[k] == SignalRuns.Run(g.w.signals[k], g.records[k], ins)
    ensures LiveStep(g.w, g.keys, s, e).live.machines[k]
         == SignalRuns.Run(g.w.signals[k], g.records[k], ins + Inputs(g.w, HandledAt(g, s, e), k))
  {
    var closed := HandledAt(g, s, e);
    if closed == [] { assert ins + Inputs(g.w, closed, k) == ins; }
    match e
    case TickCame(symbol, _, _, _, _, answers) =>
      if !Tracked(g.w, s.live.session, symbol) { CandleMachines(g.w, s.live, closed, answers, k, g.records[k], ins); }
    case Reconnected(_, _, answers) => CandleMachines(g.w, s.live, closed, answers, k, g.records[k], ins);
    case _ =>
  }

  /** Every machine of every live run is a run of the candles it was shown. */
  lemma {:induction false} MachinesAreRuns(g: Setting, es: seq<LiveEvent>, k: string)
    requires Proper(g) && k in g.records
    ensures LiveRun(g, es).live.machines[k] == SignalRuns.Run(g.w.signals[k], g.records[k], MachineInputs(g, es, k))
  {
    if es != [] {
      MachinesAreRuns(g, Front(es), k);
      EventMachine(g, LiveRun(g, Front(es)), Last(es), k, MachineInputs(g, Front(es), k));
      InputsConcat(g.w, Handled(g, Front(es)), HandledAt(g, LiveRun(g, Front(es)), Last(es)), k);
    }
  }

  // ---------------------------------------------------------------- the session is a run

  /** What a closed candle means to the session. */
  function CandleEvents(w: Wiring, l: Live, c: Candle, a: Answers): seq<Session.Event>
    requires l.machines.Keys == w.signals.Keys
  {
    if c.instrument !in l.machines then []
    else
      var decision := Routed(w.signals[c.instrument], l.machines[c.instrument], c, w.htf, w.primaryLtf).1;
      (if c.timeframe != w.htf && c.timeframe == w.primaryLtf then [Session.Spot(c.instrument, c.close)] else [])
        + if decision.None? then []
          else [Session.Signal(c.instrument, a.today, decision.value.structuralSl, a.choice, a.entryOk, a.polls)]
  }

  function ManyCandleEvents(w: Wiring, l: Live, cs: seq<Candle>, answers: Candle -> Answers): seq<Session.Event>
    requires l.machines.Keys == w.signals.Keys
  {
    if cs == [] then []
    else
      ManyCandleEvents(w, l, Front(cs), answers)
        + CandleEvents(w, CandleSteps(w, l, Front(cs), answers), Last(cs), answers(Last(cs)))
  }

  function EventsAt(g: Setting, s: System, e: LiveEvent): seq<Session.Event>
    requires Proper(g) && Wired(g.w, g.keys, s)
  {
    match e
    case TickCame(symbol, price, _, ok, today, answers) =>
      if Tracked(g.w, s.live.session, symbol) then [Session.Premium(g.w.underlying(symbol), price, ok, today)]
      else ManyCandleEvents(g.w, s.live, HandledAt(g, s, e), answers) + [Session.Spot(symbol, price)]
    case Reconnected(_, _, answers) => ManyCandleEvents(g.w, s.live, HandledAt(g, s, e), answers)
    case Halted => [Session.Halt]
    case Resumed => [Session.Resume]
    case StatusAsked(today) => [Session.Status(today)]
  }

  function SessionEvents(g: Setting, es: seq<LiveEvent>): seq<Session.Event>
    requires Proper(g)
  {
    if es == [] then [] else SessionEvents(g, Front(es)) + EventsAt(g, LiveRun(g, Front(es)), Last(es))
  }

  lemma RunConcat(cfg: Session.Config, start: int, a: seq<Session.Event>, b: seq<Session.Event>)
    ensures b == [] ==> Session.Run(cfg, start, a + b) == Session.Run(cfg, start, a)
    ensures b != [] ==>
      Session.Run(cfg, start, a + b) == Session.Step(cfg, Session.Run(cfg, start, a + Front(b)), Last(b))
  {
    if b == [] { assert a + b == a; } else { assert Front(a + b) == a + Front(b); }
  }

  lemma CandleSession(w: Wiring, l: Live, c: Candle, a: Answers, start: int, past: seq<Session.Event>)
    requires l.machines.Keys == w.signals.Keys && l.session == Session.Run(w.trading, start, past)
    ensures CandleStep(w, l, c, a).session == Session.Run(w.trading, start, past + CandleEvents(w, l, c, a))
  {
    var es := CandleEvents(w, l, c, a);
    RunConcat(w.trading, start, past, es);
    if es != [] { RunConcat(w.trading, start, past, Front(es)); }
    if |es| == 2 { assert Front(Front(es)) == []; RunConcat(w.trading, start, past, []); }
  }

  /** One more candle for the session. */
  lemma NextSession(w: Wiring, l: Live, cs: seq<Candle>, answers: Candle -> Answers, start: int, past: seq<Session.Event>)
    requires l.machines.Keys == w.signals.Keys && cs != []
    requires CandleSteps(w, l, Front(cs), answers).session
          == Session.Run(w.trading, start, past + ManyCandleEvents(w, l, Front(cs), answers))
    ensures CandleSteps(w, l, cs, answers).session
         == Session.Run(w.trading, start, past + ManyCandleEvents(w, l, cs, answers))
  {
    var l1, c := CandleSteps(w, l, Front(cs), answers), Last(cs);
    var before := ManyCandleEvents(w, l, Front(cs), answers);
    CandleSession(w, l1, c, answers(c), start, past + before);
    SameEvents(past, before, CandleEvents(w, l1, c, answers(c)));
  }

  lemma SameEvents(a: seq<Session.Event>, b: seq<Session.Event>, c: seq<Session.Event>)
    ensures a + b + c == a + (b + c)
  {
  }

  lemma {:induction false} CandleSessions(w: Wiring, l: Live, cs: seq<Candle>, answers: Candle -> Answers,
                                          start: int, past: seq<Session.Event>)
    requires l.machines.Keys == w.signals.Keys && l.session == Session.Run(w.trading, start, past)
    ensures CandleSteps(w, l, cs, answers).session
         == Session.Run(w.trading, start, past + ManyCandleEvents(w, l, cs, answers))
  {
    if cs == [] {
      assert past + ManyCandleEvents(w, l, cs, answers) == past;
    } else {
      CandleSessions(w, l, Front(cs), answers, start, past);
      NextSession(w, l, cs, answers, start, past);
    }
  }

  lemma RunOne(cfg: Session.Config, start: int, past: seq<Session.Event>, e: Session.Event)
    ensures Session.Run(cfg, start, past + [e]) == Session.Step(cfg, Session.Run(cfg, start, past), e)
  {
    Session.RunMore(cfg, start, past, e);
  }

  lemma EventSession(g: Setting, s: System, e: LiveEvent, past: seq<Session.Event>)
    requires Proper(g) && Wired(g.w, g.keys, s) && s.live.session == Session.Run(g.w.trading, g.today, past)
    ensures LiveStep(g.w, g.keys, s, e).live.session == Session.Run(g.w.trading, g.today, past + EventsAt(g, s, e))
  {
    match e
    case TickCame(symbol, price, ts, ok, today, answers) =>
      if Tracked(g.w, s.live.session, symbol) {
        RunOne(g.w.trading, g.today, past, Session.Premium(g.w.underlying(symbol), price, ok, today));
      } else {
        var closed := HandledAt(g, s, e);
        var more := ManyCandleEvents(g.w, s.live, closed, answers);
        CandleSessions(g.w, s.live, closed, answers, g.today, past);
        RunOne(g.w.trading, g.today, past + more, Session.Spot(symbol, price));
        assert past + more + [Session.Spot(symbol, price)] == past + EventsAt(g, s, e);
      }
    case Reconnected(_, _, answers) => CandleSessions(g.w, s.live, HandledAt(g, s, e), answers, g.today, past);
    case Halted => RunOne(g.w.trading, g.today, past, Session.Halt);
    case Resumed => RunOne(g.w.trading, g.today, past, Session.Resume);
    case StatusAsked(today) => RunOne(g.w.trading, g.today, past, Session.Status(today));
  }

  predicate SignalsOf(keys: set<string>, es: seq<Session.Event>) {
    forall i :: 0 <= i < |es| && es[i].Signal? ==> es[i].key in keys
  }

  lemma {:induction false} CandleSignals(w: Wiring, l: Live, cs: seq<Candle>, answers: Candle -> Answers)
    requires l.machines.Keys == w.signals.Keys
    ensures SignalsOf(w.signals.Keys, ManyCandleEvents(w, l, cs, answers))
  {
    if cs != [] { CandleSignals(w, l, Front(cs), answers); }
  }

  lemma EventSignals(g: Setting, s: System, e: LiveEvent)
    requires Proper(g) && Wired(g.w, g.keys, s)
    ensures SignalsOf(g.w.signals.Keys, EventsAt(g, s, e))
  {
    match e
    case TickCame(_, _, _, _, _, answers) => CandleSignals(g.w, s.live, HandledAt(g, s, e), answers);
    case Reconnected(_, _, answers) => CandleSignals(g.w, s.live, HandledAt(g, s, e), answers);
    case _ =>
  }

  /** The session of every live run is a run of its own events, and its signals are only those of
      instruments that have a machine. */
  lemma {:induction false} SessionIsARun(g: Setting, es: seq<LiveEvent>)
    requires Proper(g)
    ensures LiveRun(g, es).live.session == Session.Run(g.w.trading, g.today, SessionEvents(g, es))
    ensures Session.Registered(g.w.trading, SessionEvents(g, es))
  {
    if es != [] {
      SessionIsARun(g, Front(es));
      EventSession(g, LiveRun(g, Front(es)), Last(es), SessionEvents(g, Front(es)));
      EventSignals(g, LiveRun(g, Front(es)), Last(es));
    }
  }
}
