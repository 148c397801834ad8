/** The callbacks of main.py joined: a tick drives a position or the candles, a closed candle drives
    its machine, and a signal is handled at once.
 */
module LiveTrading {
  import opened Basics
  import opened Routing
  import opened Session
  import opened Aggregator
  import Positions
  import SignalMachine
  import SpotTrades

  /** What the outside answers while one closed candle is handled. */
  datatype Answers = Answers(today: int, choice: Option<Choice>, entryOk: bool, polls: seq<Positions.Poll>)

  /** The session after a closed candle, given what its machine decided. */
  function AfterClose(cfg: Config, s: State, c: Candle, primary: bool,
                      decision: Option<SignalMachine.SignalDecision>, a: Answers): State
  {
    var s1 := if primary then s.(spot := s.spot[c.instrument := c.close]) else s;
    if decision.None? then s1
    else SignalStep(cfg, s1, c.instrument, a.today, decision.value.structuralSl, a.choice, a.entryOk, a.polls)
  }

  /** How the session is wired: the machines' settings, the higher timeframe, the entry one, and the
      instrument each contract belongs to. */
  datatype Wiring = Wiring(trading: Config, signals: map<string, SignalMachine.Config>, htf: int, primaryLtf: int,
                           underlying: string -> string)

  /** The signal machines and the session. */
  datatype Live = Live(machines: map<string, SignalMachine.Machine>, session: State)

  function CandleStep(w: Wiring, l: Live, c: Candle, a: Answers): Live
    requires l.machines.Keys == w.signals.Keys
  {
    if c.instrument !in l.machines then l
    else
      var (m, decision) := Routed(w.signals[c.instrument], l.machines[c.instrument], c, w.htf, w.primaryLtf);
      Live(l.machines[c.instrument := m],
           AfterClose(w.trading, l.session, c, c.timeframe != w.htf && c.timeframe == w.primaryLtf, decision, a))
  }

  /** The candles one tick closes, in the order of the calls. */
  function CandleSteps(w: Wiring, l: Live, cs: seq<Candle>, answers: Candle -> Answers): (r: Live)
    requires l.machines.Keys == w.signals.Keys
    ensures r.machines.Keys == w.signals.Keys
  {
    if cs == [] then l else CandleStep(w, CandleSteps(w, l, Front(cs), answers), Last(cs), answers(Last(cs)))
  }

  /** What is known of an underlying once one of its ticks has been handled. */
  function Priced(l: Live, symbol: string, price: real): Live {
    l.(session := l.session.(spot := l.session.spot[symbol := price]))
  }

  // ---------------------------------------------------------------- the whole, on values

  /** The aggregators, the signal machines and the session. */
  datatype System = System(candles: map<Key, AggState>, live: Live)

  datatype LiveEvent =
    | TickCame(symbol: string, price: real, ts: int, ok: bool, today: int, answers: Candle -> Answers)
    | Reconnected(instrument: string, raw: seq<Bar>, answers: Candle -> Answers)
    | Halted
    | Resumed
    | StatusAsked(today: int)

  predicate Wired(w: Wiring, keys: seq<Key>, s: System) {
    && s.live.machines.Keys == w.signals.Keys
    && forall k :: k in keys ==> k in s.candles && k.1 >= 1
  }

  /** Some position is held in this contract. */
  predicate Tracked(w: Wiring, s: State, symbol: string) {
    w.underlying(symbol) in s.open && s.open[w.underlying(symbol)].symbol == symbol
  }

  /** The instrument's aggregators are fed and each candle that closes is handled. */
  function FeedStep(w: Wiring, keys: seq<Key>, s: System, inst: string, feed: Feed, answers: Candle -> Answers): System
    requires Wired(w, keys, s)
  {
    System(FedInOrder(s.candles, keys, inst, feed),
           CandleSteps(w, s.live, ClosedInOrder(s.candles, keys, inst, feed), answers))
  }

  function WithSession(s: System, session: State): System { s.(live := s.live.(session := session)) }

  function LiveStep(w: Wiring, keys: seq<Key>, s: System, e: LiveEvent): (r: System)
    requires Wired(w, keys, s)
    ensures Wired(w, keys, r)
  {
    match e
    case TickCame(symbol, price, ts, ok, today, answers) =>
      if Tracked(w, s.live.session, symbol) then
        WithSession(s, PremiumStep(w.trading, s.live.session, w.underlying(symbol), price, ok, today))
      else
        var fed := FeedStep(w, keys, s, symbol, TickFeed(Tick(ts, price)), answers);
        fed.(live := Priced(fed.live, symbol, price))
    case Reconnected(inst, raw, answers) => FeedStep(w, keys, s, inst, HistoryFeed(raw), answers)
    case Halted => WithSession(s, Step(w.trading, s.live.session, Halt))
    case Resumed => WithSession(s, Step(w.trading, s.live.session, Resume))
    case StatusAsked(today) => WithSession(s, Step(w.trading, s.live.session, Status(today)))
  }

  /** A signal is sized from its own entry: the risk plan of the position it opens has the risk
      points of the signal's simulated trade. */
  lemma PlanRisksTheSignal(w: Wiring, l: Live, c: Candle, a: Answers)
    requires l.machines.Keys == w.signals.Keys && c.instrument !in l.session.open
    requires c.instrument in CandleStep(w, l, c, a).session.open
    ensures c.instrument in w.signals
    ensures var (_, decision) := Routed(w.signals[c.instrument], l.machines[c.instrument], c, w.htf, w.primaryLtf);
      && decision.Some? && decision.value.entry == c
      && CandleStep(w, l, c, a).session.open[c.instrument].plan.spotRiskPoints == SpotTrades.RiskPoints(decision.value)
  {
    var (_, decision) := Routed(w.signals[c.instrument], l.machines[c.instrument], c, w.htf, w.primaryLtf);
    if decision.Some? { EntryIsTheCandle(w.signals[c.instrument], l.machines[c.instrument], c); }
  }

  lemma EntryIsTheCandle(cfg: SignalMachine.Config, m: SignalMachine.Machine, c: Candle)
    requires SignalMachine.LtfStep(cfg, m, c).decision.Some?
    ensures SignalMachine.LtfStep(cfg, m, c).decision.value.entry == c
  {
    var m1 := m.(history := Suffix(m.history + [c], SignalMachine.HISTORY_LIMIT), record := SignalMachine.VoidReset(m.record, c));
    assert SignalMachine.LtfStep(cfg, m, c) == SignalMachine.Dispatch(cfg, m1, c);
  }

  class LiveSession {
    const session: TradingSession
    const router: CandleRouter
    const candles: CandleAggregator
    ghost const underlying: string -> string  // the instrument a contract belongs to

    constructor (session: TradingSession, router: CandleRouter, candles: CandleAggregator,
                 ghost underlying: string -> string)
      ensures this.session == session && this.router == router && this.candles == candles
      ensures this.underlying == underlying
    {
      this.session, this.router, this.candles, this.underlying := session, router, candles, underlying;
    }

    /** The session is consistent and every position is in a contract of its own instrument. */
    ghost predicate Trades()
      reads session, session.guard, session.openPositions.Values
    {
      session.Valid() && HoldsOwn(session.View(), underlying)
    }

    ghost predicate Machines()
      reads router.Parts()
    {
      router.Valid() && router.htf == 75 && router.machines.Keys <= session.cfg.instruments
    }

    /** The contract selected for an instrument is one of its own. */
    ghost predicate OwnChoice(key: string, a: Answers) { a.choice.Some? ==> underlying(a.choice.value.symbol) == key }

    /** A signal is handled; the maps stay consistent because the contract is the instrument's own. */
    method Handle(key: string, spotSl: real, a: Answers)
      requires Trades() && key in session.cfg.instruments && OwnChoice(key, a)
      modifies session, session.guard
      ensures Trades()
      ensures session.View() == SignalStep(session.cfg, old(session.View()), key, a.today, spotSl, a.choice, a.entryOk, a.polls)
    {
      ghost var open, bySymbol := session.openPositions, session.bySymbol;
      StepHoldsOwn(session.cfg, session.View(), Signal(key, a.today, spotSl, a.choice, a.entryOk, a.polls), underlying);
      assert forall k :: k in open ==> session.View().open[k].symbol == open[k].instrumentKey;
      if key !in open && a.choice.Some? {
        ContractsOfOwnUnderlying(open, bySymbol, underlying, key, a.choice.value.symbol);
      }
      session.HandleSignal(key, a.today, spotSl, a.choice, a.entryOk, a.polls);
    }

    lemma Apart(p: Positions.Position)
      ensures (p as object) !in router.Parts()
    {
    }

    lemma SessionApart()
      ensures (session as object) !in router.Parts() && (session.guard as object) !in router.Parts()
      ensures (session.manager as object) !in router.Parts()
    {
    }

    /** The machines are none of the session's objects. */
    method Route(c: Candle) returns (decision: Option<SignalMachine.SignalDecision>)
      requires Machines() && c.instrument in router.machines
      modifies router.Parts()
      ensures unchanged(session) && unchanged(session.guard)
      ensures forall k :: k in session.openPositions ==> unchanged(session.openPositions[k])
      ensures Machines()
      ensures forall k :: k in router.machines ==> router.ViewOf(k) == Stepped(k, c, old(router.ViewOf(k))).0
      ensures decision == Stepped(c.instrument, c, old(router.ViewOf(c.instrument))).1
    {
      forall k | k in session.openPositions { Apart(session.openPositions[k]); }
      SessionApart();
      decision := router.OnCandleClose(c);
    }

    twostate lemma SameSession()
      requires old(Trades()) && unchanged(session) && unchanged(session.guard)
      requires forall k :: k in session.openPositions ==> unchanged(session.openPositions[k])
      ensures Trades() && session.View() == old(session.View())
    {
    }

    /** What a closed candle does to the machine of `k`. */
    ghost function Stepped(k: string, c: Candle, m: SignalMachine.Machine): (SignalMachine.Machine, Option<SignalMachine.SignalDecision>)
      requires k in router.machines
    {
      if k == c.instrument then Routed(router.machines[k].cfg, m, c, router.htf, router.primaryLtf) else (m, None)
    }

    predicate Primary(c: Candle) { c.timeframe != router.htf && c.timeframe == router.primaryLtf }

    /** The session once the close is noted. */
    function Noted(s: State, c: Candle): State {
      if Primary(c) then s.(spot := s.spot[c.instrument := c.close]) else s
    }

    method NoteSpot(c: Candle)
      requires Trades() && Machines()
      modifies session
      ensures Trades() && Machines() && session.View() == Noted(old(session.View()), c)
      ensures forall k :: k in router.machines ==> router.ViewOf(k) == old(router.ViewOf(k))
    {
      SessionApart();
      if Primary(c) {
        session.latestSpot := session.latestSpot[c.instrument := c.close];
      }
    }

    method React(c: Candle, decision: Option<SignalMachine.SignalDecision>, a: Answers)
      requires Trades() && Machines() && c.instrument in router.machines && OwnChoice(c.instrument, a)
      modifies session, session.guard
      ensures Trades() && Machines()
      ensures session.View() == AfterClose(session.cfg, old(session.View()), c, false, decision, a)
      ensures forall k :: k in router.machines ==> router.ViewOf(k) == old(router.ViewOf(k))
    {
      if decision.Some? {
        Handle(c.instrument, decision.value.structuralSl, a);
      }
    }

    /** A closed candle: its machine steps, every other machine stays as it was, the spot price is
        noted, and a signal is handled at once. */
    method OnCandleClose(c: Candle, a: Answers)
      requires Machines() && Trades() && OwnChoice(c.instrument, a)
      modifies session, session.guard, router.Parts()
      ensures Machines() && Trades()
      ensures forall k :: k in router.machines ==> router.ViewOf(k) == Stepped(k, c, old(router.ViewOf(k))).0
      ensures session.View() == if c.instrument !in router.machines then old(session.View())
        else AfterClose(session.cfg, old(session.View()), c, Primary(c),
                        Stepped(c.instrument, c, old(router.ViewOf(c.instrument))).1, a)
    {
      if c.instrument !in router.machines { return; }
      NoteSpot(c);
      label before:
      var decision := Route(c);
      SameSession@before();
      React(c, decision, a);
    }

    ghost function Setup(): Wiring {
      Wiring(session.cfg, map k | k in router.machines :: router.machines[k].cfg, router.htf, router.primaryLtf,
             underlying)
    }

    ghost function View(): Live
      requires Machines()
      reads router.Parts(), session, session.guard, session.openPositions.Values
    {
      Live(map k | k in router.machines :: router.ViewOf(k), session.View())
    }

    lemma FollowedMachines(was: Live, c: Candle, a: Answers)
      requires Machines() && was.machines.Keys == router.machines.Keys
      requires forall k :: k in router.machines ==> router.ViewOf(k) == Stepped(k, c, was.machines[k]).0
      ensures View().machines == CandleStep(Setup(), was, c, a).machines
    {
    }

    lemma FollowedSession(was: Live, c: Candle, a: Answers)
      requires Machines() && was.machines.Keys == router.machines.Keys
      requires session.View() == if c.instrument !in router.machines then was.session
        else AfterClose(session.cfg, was.session, c, Primary(c), Stepped(c.instrument, c, was.machines[c.instrument]).1, a)
      ensures View().session == CandleStep(Setup(), was, c, a).session
    {
    }

    /** The same, as one step of the whole. */
    method OnClosed(c: Candle, a: Answers)
      requires Machines() && Trades() && OwnChoice(c.instrument, a)
      modifies session, session.guard, router.Parts()
      ensures Machines() && Trades() && View() == CandleStep(Setup(), old(View()), c, a)
    {
      ghost var was := View();
      assert forall k :: k in router.machines ==> was.machines[k] == router.ViewOf(k);
      OnCandleClose(c, a);
      FollowedMachines(was, c, a);
      FollowedSession(was, c, a);
    }

    method OnAllClosed(closed: seq<Candle>, answers: Candle -> Answers)
      requires Machines() && Trades() && forall c: Candle :: OwnChoice(c.instrument, answers(c))
      modifies session, session.guard, router.Parts()
      ensures Machines() && Trades() && View() == CandleSteps(Setup(), old(View()), closed, answers)
    {
      for i := 0 to |closed|
        invariant Machines() && Trades() && View() == CandleSteps(Setup(), old(View()), closed[..i], answers)
      {
        assert Front(closed[..i + 1]) == closed[..i];
        OnClosed(closed[i], answers(closed[i]));
      }
      assert closed[..|closed|] == closed;
    }

    twostate predicate PartsKept()
      reads router.Parts()
    {
      && unchanged(router.store)
      && (forall k :: k in router.machines ==> unchanged(router.machines[k]))
      && (forall k :: k in router.machines ==> unchanged(router.machines[k].rollingBase))
      && (forall k :: k in router.machines ==> unchanged(router.machines[k].retest))
    }

    twostate lemma SameMachines()
      requires old(Machines()) && PartsKept()
      ensures Machines() && forall k :: k in router.machines ==> router.ViewOf(k) == old(router.ViewOf(k))
    {
    }

    method ForwardFirst(symbol: string, price: real, ok: bool, today: int) returns (ghost holder: string)
      requires session.Valid() && symbol in session.bySymbol
      modifies session, session.guard, session.manager, session.openPositions.Values
      ensures unchanged(router.store)
      ensures forall k :: k in router.machines ==> unchanged(router.machines[k])
      ensures session.Valid()
      ensures holder in old(session.openPositions) && old(session.openPositions)[holder] == old(session.bySymbol)[symbol]
      ensures session.View() == PremiumStep(session.cfg, old(session.View()), holder, price, ok, today)
    {
      holder := session.OnTick(symbol, price, ok, today);
    }

    method Forward(symbol: string, price: real, ok: bool, today: int) returns (ghost holder: string)
      requires session.Valid() && symbol in session.bySymbol
      modifies session, session.guard, session.manager, session.openPositions.Values
      ensures PartsKept()
      ensures session.Valid()
      ensures holder in old(session.openPositions) && old(session.openPositions)[holder] == old(session.bySymbol)[symbol]
      ensures session.View() == PremiumStep(session.cfg, old(session.View()), holder, price, ok, today)
    {
      holder := ForwardFirst(symbol, price, ok, today);
    }

    /** A position's update touches neither the machines nor the aggregators. */
    method ForwardApart(symbol: string, price: real, ok: bool, today: int) returns (ghost holder: string)
      requires session.Valid() && symbol in session.bySymbol
      modifies session, session.guard, session.manager, session.openPositions.Values
      ensures PartsKept()
      ensures unchanged(candles)
      ensures forall g :: g in candles.aggregators.Values ==> unchanged(g)
      ensures forall c :: c in old(candles.Candles()) ==> unchanged(c)
      ensures session.Valid()
      ensures holder in old(session.openPositions) && old(session.openPositions)[holder] == old(session.bySymbol)[symbol]
      ensures session.View() == PremiumStep(session.cfg, old(session.View()), holder, price, ok, today)
    {
      holder := Forward(symbol, price, ok, today);
    }

    /** The map of tracked contracts says which contracts are held. */
    lemma TrackedIff(symbol: string)
      requires Trades()
      ensures symbol in session.bySymbol <==> Tracked(Setup(), session.View(), symbol)
      ensures symbol in session.bySymbol ==>
        forall k :: k in session.openPositions && session.openPositions[k] == session.bySymbol[symbol] ==> k == underlying(symbol)
    {
      var open, held := session.openPositions, session.View().open;
      assert forall k :: k in open ==> held[k].symbol == open[k].instrumentKey;
    }

    lemma PremiumKeepsOwn(s: State, holder: string, price: real, ok: bool, today: int)
      requires session.Valid() && HoldsOwn(s, underlying)
      requires session.View() == PremiumStep(session.cfg, s, holder, price, ok, today)
      ensures Trades()
    {
      StepHoldsOwn(session.cfg, s, Premium(holder, price, ok, today), underlying);
    }

    lemma SameMachinesView(was: Live)
      requires Machines() && was.machines.Keys == router.machines.Keys
      requires forall k :: k in router.machines ==> router.ViewOf(k) == was.machines[k]
      ensures View() == was.(session := session.View())
    {
      assert View().machines == was.machines;
    }

    /** A tick of a tracked contract drives its position and nothing else. */
    method OnContractTick(symbol: string, price: real, ok: bool, today: int)
      requires Machines() && Trades() && candles.Valid() && symbol in session.bySymbol
      modifies session, session.guard, session.manager, session.openPositions.Values
      ensures Machines() && Trades()
      ensures View() == old(View()).(session := PremiumStep(session.cfg, old(session.View()), underlying(symbol), price, ok, today))
      ensures candles.Valid() && candles.View() == old(candles.View()) && candles.keys == old(candles.keys)
    {
      ghost var was, s := View(), session.View();
      TrackedIff(symbol);
      var holder := ForwardApart(symbol, price, ok, today);
      SameMachines();
      SameCandles();
      PremiumKeepsOwn(s, holder, price, ok, today);
      SameMachinesView(was);
    }

    // ---- ticks of an underlying

    lemma AggregatorApart(g: TimeframeAggregator)
      ensures (g as object) !in router.Parts()
    {
    }

    lemma CandleApart(c: LiveCandle)
      ensures (c as object) !in router.Parts()
    {
    }

    lemma CandlesObjectApart()
      ensures (candles as object) !in router.Parts()
    {
    }

    /** The aggregators' objects are none of the machines' or the session's. */
    method FeedAggregators(symbol: string, price: real, ts: int) returns (closed: seq<Candle>)
      requires candles.Valid()
      modifies candles.aggregators.Values, candles.Candles()
      ensures PartsKept() && unchanged(session) && unchanged(session.guard)
      ensures forall k :: k in session.openPositions ==> unchanged(session.openPositions[k])
      ensures candles.Valid() && candles.View() == FedInOrder(old(candles.View()), candles.keys, symbol, TickFeed(Tick(ts, price)))
      ensures closed == ClosedInOrder(old(candles.View()), candles.keys, symbol, TickFeed(Tick(ts, price)))
    {
      closed := candles.IngestTick(symbol, price, ts);
    }

    method FeedFirst(symbol: string, price: real, ts: int) returns (closed: seq<Candle>)
      requires Machines() && Trades() && candles.Valid()
      modifies candles.aggregators.Values, candles.Candles()
      ensures Machines() && Trades() && View() == old(View())
      ensures candles.Valid() && candles.View() == FedInOrder(old(candles.View()), candles.keys, symbol, TickFeed(Tick(ts, price)))
      ensures closed == ClosedInOrder(old(candles.View()), candles.keys, symbol, TickFeed(Tick(ts, price)))
    {
      ghost var was := View();
      closed := FeedAggregators(symbol, price, ts);
      SameMachines();
      SameSession();
      SameMachinesView(was);
    }

    /** The aggregators' objects are untouched by what closed candles cause. */
    method CloseApart(closed: seq<Candle>, answers: Candle -> Answers)
      requires Machines() && Trades() && candles.Valid() && forall c: Candle :: OwnChoice(c.instrument, answers(c))
      modifies session, session.guard, router.Parts()
      ensures Machines() && Trades() && View() == CandleSteps(Setup(), old(View()), closed, answers)
      ensures unchanged(candles) && unchanged(candles.aggregators.Values) && unchanged(candles.Candles())
    {
      forall g | g in candles.aggregators.Values { AggregatorApart(g); }
      forall c | c in candles.Candles() { CandleApart(c); }
      assert (candles as object) !in router.Parts() by { CandlesObjectApart(); }
      OnAllClosed(closed, answers);
    }

    method SetPrice(symbol: string, price: real)
      requires Trades()
      modifies session
      ensures Trades() && session.View() == old(session.View()).(spot := old(session.View()).spot[symbol := price])
      ensures PartsKept()
    {
      session.latestSpot := session.latestSpot[symbol := price];
    }

    method NotePrice(symbol: string, price: real)
      requires Machines() && Trades()
      modifies session
      ensures Machines() && Trades() && View() == Priced(old(View()), symbol, price)
    {
      ghost var was := View();
      SetPrice(symbol, price);
      SameMachines();
      SameMachinesView(was);
    }

    method CloseAndNote(closed: seq<Candle>, answers: Candle -> Answers, symbol: string, price: real)
      requires Machines() && Trades() && candles.Valid() && forall c: Candle :: OwnChoice(c.instrument, answers(c))
      modifies session, session.guard, router.Parts()
      ensures Machines() && Trades()
      ensures View() == Priced(CandleSteps(Setup(), old(View()), closed, answers), symbol, price)
      ensures candles.Valid() && candles.View() == old(candles.View()) && candles.keys == old(candles.keys)
    {
      HandleClosed(closed, answers);
      NotePriceApart(symbol, price);
    }

    method NotePriceApart(symbol: string, price: real)
      requires Machines() && Trades() && candles.Valid()
      modifies session
      ensures Machines() && Trades() && View() == Priced(old(View()), symbol, price)
      ensures candles.Valid() && candles.View() == old(candles.View()) && candles.keys == old(candles.keys)
    {
      NotePrice(symbol, price);
    }

    twostate lemma SameCandles()
      requires old(candles.Valid()) && unchanged(candles) && unchanged(candles.aggregators.Values) && unchanged(candles.Candles())
      ensures candles.Valid() && candles.View() == old(candles.View())
    {
    }

    /** A tick of an underlying: it feeds the instrument's aggregators, each candle it closes drives
        the instrument's machine, each signal is handled, and the price is noted. */
    method OnSpotTick(symbol: string, price: real, ts: int, answers: Candle -> Answers)
      returns (ghost closed: seq<Candle>)
      requires Machines() && Trades() && candles.Valid() && forall c: Candle :: OwnChoice(c.instrument, answers(c))
      modifies session, session.guard, router.Parts(), candles.aggregators.Values, candles.Candles()
      ensures Machines() && Trades() && candles.Valid() && candles.keys == old(candles.keys)
      ensures closed == ClosedInOrder(old(candles.View()), old(candles.keys), symbol, TickFeed(Tick(ts, price)))
      ensures View() == Priced(CandleSteps(Setup(), old(View()), closed, answers), symbol, price)
      ensures candles.View() == FedInOrder(old(candles.View()), old(candles.keys), symbol, TickFeed(Tick(ts, price)))
    {
      var handedOut := FeedFirst(symbol, price, ts);
      closed := handedOut;
      CloseAndNote(handedOut, answers, symbol, price);
    }

    ghost function Whole(): System
      requires Machines()
      reads router.Parts(), session, session.guard, session.openPositions.Values
      reads candles, candles.aggregators.Values, candles.Candles()
    {
      System(candles.View(), View())
    }

    method ContractTick(symbol: string, price: real, ts: int, ok: bool, today: int, answers: Candle -> Answers)
      requires Machines() && Trades() && candles.Valid() && Tracked(Setup(), session.View(), symbol)
      modifies session, session.guard, session.manager, session.openPositions.Values
      ensures Machines() && Trades() && candles.Valid() && candles.keys == old(candles.keys)
      ensures Whole() == LiveStep(Setup(), candles.keys, old(Whole()), TickCame(symbol, price, ts, ok, today, answers))
    {
      TrackedIff(symbol);
      OnContractTick(symbol, price, ok, today);
    }

    lemma WholeIsWired()
      requires Machines() && candles.Valid()
      ensures Wired(Setup(), candles.keys, Whole())
    {
    }

    /** What a tick of an underlying leaves behind is the step of the whole. */
    lemma SpotStep(was: System, symbol: string, price: real, ts: int, ok: bool, today: int, answers: Candle -> Answers,
                   closed: seq<Candle>)
      requires Machines() && candles.Valid() && Wired(Setup(), candles.keys, was)
      requires !Tracked(Setup(), was.live.session, symbol)
      requires closed == ClosedInOrder(was.candles, candles.keys, symbol, TickFeed(Tick(ts, price)))
      requires View() == Priced(CandleSteps(Setup(), was.live, closed, answers), symbol, price)
      requires candles.View() == FedInOrder(was.candles, candles.keys, symbol, TickFeed(Tick(ts, price)))
      ensures Whole() == LiveStep(Setup(), candles.keys, was, TickCame(symbol, price, ts, ok, today, answers))
    {
    }

    method SpotTick(symbol: string, price: real, ts: int, ok: bool, today: int, answers: Candle -> Answers)
      requires Machines() && Trades() && candles.Valid() && forall c: Candle :: OwnChoice(c.instrument, answers(c))
      requires !Tracked(Setup(), session.View(), symbol)
      modifies session, session.guard, router.Parts(), candles.aggregators.Values, candles.Candles()
      ensures Machines() && Trades() && candles.Valid() && candles.keys == old(candles.keys)
      ensures Whole() == LiveStep(Setup(), candles.keys, old(Whole()), TickCame(symbol, price, ts, ok, today, answers))
    {
      ghost var was := Whole();
      WholeIsWired();
      ghost var closed := OnSpotTick(symbol, price, ts, answers);
      SpotStep(was, symbol, price, ts, ok, today, answers, closed);
    }

    // ---- a reconnect

    method Repair(instrument: string, raw: seq<Bar>) returns (closed: seq<Candle>)
      requires candles.Valid()
      modifies candles.aggregators.Values
      ensures PartsKept() && unchanged(session) && unchanged(session.guard)
      ensures forall k :: k in session.openPositions ==> unchanged(session.openPositions[k])
      ensures candles.Valid() && candles.View() == FedInOrder(old(candles.View()), candles.keys, instrument, HistoryFeed(raw))
      ensures closed == ClosedInOrder(old(candles.View()), candles.keys, instrument, HistoryFeed(raw))
    {
      closed := candles.BootstrapInstrument(instrument, raw);
    }

    method RepairFirst(instrument: string, raw: seq<Bar>) returns (closed: seq<Candle>)
      requires Machines() && Trades() && candles.Valid()
      modifies candles.aggregators.Values
      ensures Machines() && Trades() && View() == old(View())
      ensures candles.Valid() && candles.View() == FedInOrder(old(candles.View()), candles.keys, instrument, HistoryFeed(raw))
      ensures closed == ClosedInOrder(old(candles.View()), candles.keys, instrument, HistoryFeed(raw))
    {
      ghost var was := View();
      closed := Repair(instrument, raw);
      SameMachines();
      SameSession();
      SameMachinesView(was);
    }

    method HandleClosed(closed: seq<Candle>, answers: Candle -> Answers)
      requires Machines() && Trades() && candles.Valid() && forall c: Candle :: OwnChoice(c.instrument, answers(c))
      modifies session, session.guard, router.Parts()
      ensures Machines() && Trades() && View() == CandleSteps(Setup(), old(View()), closed, answers)
      ensures candles.Valid() && candles.View() == old(candles.View()) && candles.keys == old(candles.keys)
    {
      CloseApart(closed, answers);
      SameCandles();
    }

    /** Recent history repairs the aggregators; the candles it hands out again are handled like any
        others. */
    method OnReconnect(instrument: string, raw: seq<Bar>, answers: Candle -> Answers)
      requires Machines() && Trades() && candles.Valid() && forall c: Candle :: OwnChoice(c.instrument, answers(c))
      modifies session, session.guard, router.Parts(), candles.aggregators.Values
      ensures Machines() && Trades() && candles.Valid() && candles.keys == old(candles.keys)
      ensures Whole() == LiveStep(Setup(), candles.keys, old(Whole()), Reconnected(instrument, raw, answers))
    {
      ghost var was := Whole();
      WholeIsWired();
      var closed := RepairFirst(instrument, raw);
      HandleClosed(closed, answers);
      ReconnectStep(was, instrument, raw, answers, closed);
    }

    lemma ReconnectStep(was: System, instrument: string, raw: seq<Bar>, answers: Candle -> Answers, closed: seq<Candle>)
      requires Machines() && candles.Valid() && Wired(Setup(), candles.keys, was)
      requires closed == ClosedInOrder(was.candles, candles.keys, instrument, HistoryFeed(raw))
      requires View() == CandleSteps(Setup(), was.live, closed, answers)
      requires candles.View() == FedInOrder(was.candles, candles.keys, instrument, HistoryFeed(raw))
      ensures Whole() == LiveStep(Setup(), candles.keys, was, Reconnected(instrument, raw, answers))
    {
    }

    /** A contract with an open position takes its ticks; every other tick is one of an underlying. */
    method OnTick(symbol: string, price: real, ts: int, ok: bool, today: int, answers: Candle -> Answers)
      requires Machines() && Trades() && candles.Valid() && forall c: Candle :: OwnChoice(c.instrument, answers(c))
      modifies session, session.guard, session.manager, session.openPositions.Values
      modifies router.Parts(), candles.aggregators.Values, candles.Candles()
      ensures Machines() && Trades() && candles.Valid() && candles.keys == old(candles.keys)
      ensures Whole() == LiveStep(Setup(), candles.keys, old(Whole()), TickCame(symbol, price, ts, ok, today, answers))
    {
      TrackedIff(symbol);
      if symbol in session.bySymbol {
        ContractTick(symbol, price, ts, ok, today, answers);
      } else {
        SpotTick(symbol, price, ts, ok, today, answers);
      }
    }
  }
}
