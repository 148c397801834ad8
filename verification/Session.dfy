/** risk_controls/daily_guard.py and the trading part of main.py: several instruments, at most
    one open position each, behind one daily guard.

    A day is an integer; `today` is what date.today() answers during an event.
 */
module Session {
  import opened Basics
  import opened RiskPlans
  import opened Positions

  // ---------------------------------------------------------------- guard, on values

  datatype Limits = Limits(totalCapital: real, maxLossPct: real, maxTrades: int)

  datatype Guard = Guard(date: int, trades: int, pnl: real, halted: bool)

  function FreshGuard(today: int): Guard { Guard(today, 0, 0.0, false) }

  function RollDay(g: Guard, today: int): Guard { if g.date != today then FreshGuard(today) else g }

  function MaxLoss(limits: Limits): real { limits.totalCapital * (limits.maxLossPct / 100.0) }

  /** Whether a new entry is allowed, on a guard already rolled to today. */
  predicate Allows(limits: Limits, g: Guard) {
    && !g.halted
    && !(g.pnl <= -MaxLoss(limits))
    && !(g.trades >= limits.maxTrades)
  }

  function Record(g: Guard, today: int, pnl: real): Guard {
    var r := RollDay(g, today);
    r.(trades := r.trades + 1, pnl := r.pnl + pnl)
  }

  class DailyGuard {
    const limits: Limits
    var date: int
    var trades: int
    var pnl: real
    var halted: bool

    constructor (limits: Limits, today: int)
      ensures this.limits == limits && View() == FreshGuard(today)
    {
      this.limits := limits;
      date, trades, pnl, halted := today, 0, 0.0, false;
    }

    ghost function View(): Guard
      reads this
    {
      Guard(date, trades, pnl, halted)
    }

    method RollDayIfNeeded(today: int)
      modifies this
      ensures View() == RollDay(old(View()), today)
      ensures date == today
      ensures if old(date) == today then trades == old(trades) && pnl == old(pnl) && halted == old(halted)
              else trades == 0 && pnl == 0.0 && !halted
    {
      if date != today {
        date, trades, pnl, halted := today, 0, 0.0, false;
      }
    }

    method CanTrade(today: int) returns (ok: bool)
      modifies this
      ensures View() == RollDay(old(View()), today) && ok == Allows(limits, View())
      ensures date == today
      ensures if old(date) == today then trades == old(trades) && pnl == old(pnl) && halted == old(halted)
              else trades == 0 && pnl == 0.0 && !halted
      ensures ok <==> !halted && pnl > -(limits.totalCapital * (limits.maxLossPct / 100.0)) && trades < limits.maxTrades
    {
      RollDayIfNeeded(today);
      if halted { return false; }
      var maxLoss := limits.totalCapital * (limits.maxLossPct / 100.0);
      if pnl <= -maxLoss { return false; }
      if trades >= limits.maxTrades { return false; }
      return true;
    }

    method RecordTradeClosed(tradePnl: real, today: int)
      modifies this
      ensures View() == Record(old(View()), today, tradePnl)
      ensures date == today
      ensures if old(date) == today then trades == old(trades) + 1 && pnl == old(pnl) + tradePnl && halted == old(halted)
              else trades == 1 && pnl == tradePnl && !halted
    {
      RollDayIfNeeded(today);
      trades := trades + 1;
      pnl := pnl + tradePnl;
      var _ := CanTrade(today);
    }

    method Halt()
      modifies this
      ensures View() == old(View()).(halted := true)
    {
      halted := true;
    }

    method Resume()
      modifies this
      ensures View() == old(View()).(halted := false)
    {
      halted := false;
    }
  }

  // ---------------------------------------------------------------- session, on values

  datatype Config = Config(
    instruments: set<string>, lotSize: string -> int, limits: Limits, riskPct: real, target1Rr: real, rules: Rules)

  /** The contract selected for a signal, its price and its delta. */
  datatype Choice = Choice(symbol: string, ltp: real, delta: real)

  datatype Offer = Offer(symbol: string, plan: RiskPlan)

  datatype Held = Held(symbol: string, plan: RiskPlan, pos: Pos)

  /** `spot` is the latest price or close of each underlying. */
  datatype State = State(guard: Guard, open: map<string, Held>, spot: map<string, real>)

  datatype Event =
    | Signal(key: string, today: int, spotSl: real, choice: Option<Choice>, entryOk: bool, polls: seq<Poll>)
    | Spot(symbol: string, price: real)                        // a tick or candle close of an underlying
    | Premium(key: string, price: real, ok: bool, today: int)  // a tick of the contract held for `key`
    | Halt
    | Resume
    | Status(today: int)                                       // get_status rolls the day

  /** The risk plan of a signal for the chosen contract. */
  function PlanOf(cfg: Config, key: string, spot: real, spotSl: real, choice: Choice): RiskPlan {
    ComputeRiskPlan(choice.ltp, spot, spotSl, choice.delta, cfg.lotSize(key),
                    cfg.limits.totalCapital, cfg.riskPct, cfg.target1Rr)
  }

  /** None when no expiry or strike was found, or no spot price is known yet. */
  function OfferFor(cfg: Config, spot: map<string, real>, key: string, spotSl: real, choice: Option<Choice>): Option<Offer> {
    if choice.None? || key !in spot then None
    else Some(Offer(choice.value.symbol, PlanOf(cfg, key, spot[key], spotSl, choice.value)))
  }

  function SignalStep(cfg: Config, s: State, key: string, today: int, spotSl: real, choice: Option<Choice>,
                      entryOk: bool, polls: seq<Poll>): State
  {
    if key in s.open then s
    else
      var s1 := s.(guard := RollDay(s.guard, today));
      var offer := OfferFor(cfg, s.spot, key, spotSl, choice);
      if !Allows(cfg.limits, s1.guard) || offer.None? then s1
      else
        var fill := FirstFill(polls, offer.value.plan.quantity);
        if !entryOk || fill.None? then s1
        else s1.(open := s1.open[key := Held(offer.value.symbol, offer.value.plan, Opened(offer.value.plan, fill.value))])
  }

  function PremiumUpdate(cfg: Config, s: State, key: string, price: real, ok: bool): Update
    requires key in s.open
  {
    PriceStep(cfg.rules, s.open[key].plan, s.open[key].pos, price, ok)
  }

  /** A signal opens a position exactly when none is held, the guard allows it, a contract and a
      spot price are known, and the entry is accepted and filled. */
  lemma SignalOpensIff(cfg: Config, s: State, key: string, today: int, spotSl: real, choice: Option<Choice>,
                       entryOk: bool, polls: seq<Poll>)
    requires key !in s.open
    ensures key in SignalStep(cfg, s, key, today, spotSl, choice, entryOk, polls).open <==>
      && Allows(cfg.limits, RollDay(s.guard, today)) && choice.Some? && key in s.spot && entryOk
      && FirstFill(polls, PlanOf(cfg, key, s.spot[key], spotSl, choice.value).quantity).Some?
  {
  }

  /** The position a signal opens: the chosen contract, the fill reported, and a plan made of the
      distance `d` from the latest spot price to the signal's stop in premium, the reward `t` and
      the capital `c` that the risk percentage allows.  Nothing else that is held changes. */
  lemma OpenedBySignal(cfg: Config, s: State, key: string, today: int, spotSl: real, choice: Choice, entryOk: bool,
                       polls: seq<Poll>, d: real, t: real, c: real, riskPerLot: real)
    requires key !in s.open && key in s.spot && cfg.lotSize(key) >= 1
    requires d == Abs(s.spot[key] - spotSl) * Abs(choice.delta) && t == d * cfg.target1Rr
    requires c == cfg.limits.totalCapital * (cfg.riskPct / 100.0) && riskPerLot == d * cfg.lotSize(key) as real
    ensures var s' := SignalStep(cfg, s, key, today, spotSl, Some(choice), entryOk, polls);
      && (forall k :: k != key ==> (k in s'.open <==> k in s.open) && (k in s.open ==> s'.open[k] == s.open[k]))
      && s'.spot == s.spot
      && (key in s'.open ==>
            && s'.open[key].symbol == choice.symbol
            && PlannedWith(s'.open[key].plan, choice.ltp, d, t, c) && SizedFor(s'.open[key].plan, c, riskPerLot)
            && JustOpened(s'.open[key], polls))
  {
    PlanInFigures(choice.ltp, s.spot[key], spotSl, choice.delta, cfg.lotSize(key), cfg.limits.totalCapital, cfg.riskPct,
                  cfg.target1Rr, d, t, c, riskPerLot);
  }

  /** Open with the whole fill, at its planned stop, nothing realized. */
  predicate JustOpened(h: Held, polls: seq<Poll>) {
    && h.pos.status == Open && h.pos.filled == h.pos.remaining && FirstFill(polls, h.plan.quantity) == Some(h.pos.filled)
    && h.pos.currentSl == h.plan.slPrice && h.pos.best == h.plan.entryPrice && h.pos.pnl == 0.0 && h.pos.reason.None?
  }

  /** A signal for an instrument that holds a position changes nothing. */
  lemma SignalWhileHeld(cfg: Config, s: State, key: string, today: int, spotSl: real, choice: Option<Choice>,
                        entryOk: bool, polls: seq<Poll>)
    requires key in s.open
    ensures SignalStep(cfg, s, key, today, spotSl, choice, entryOk, polls) == s
  {
  }

  /** A premium touches only the position it is of. */
  lemma PremiumTouchesOne(cfg: Config, s: State, key: string, price: real, ok: bool, today: int)
    ensures var s' := PremiumStep(cfg, s, key, price, ok, today);
      && (forall k :: k != key ==> (k in s'.open <==> k in s.open) && (k in s.open ==> s'.open[k] == s.open[k]))
      && s'.spot == s.spot
      && (key in s.open && key in s'.open ==> s'.open[key].symbol == s.open[key].symbol && s'.open[key].plan == s.open[key].plan)
      && (key in s.open && key !in s'.open ==> PremiumUpdate(cfg, s, key, price, ok).pos.status == Closed)
  {
    if key in s.open { StepHasShape(cfg.rules, s.open[key].plan, s.open[key].pos, price, ok); }
  }

  /** The session once the position of `key` has been updated. */
  function Settled(s: State, key: string, u: Update, today: int): State
    requires key in s.open
  {
    if u.closed then State(Record(s.guard, today, u.pos.pnl), s.open - {key}, s.spot)
    else s.(open := s.open[key := s.open[key].(pos := u.pos)])
  }

  function PremiumStep(cfg: Config, s: State, key: string, price: real, ok: bool, today: int): State {
    if key !in s.open then s else Settled(s, key, PremiumUpdate(cfg, s, key, price, ok), today)
  }

  function Step(cfg: Config, s: State, e: Event): State {
    match e
    case Signal(key, today, spotSl, choice, entryOk, polls) => SignalStep(cfg, s, key, today, spotSl, choice, entryOk, polls)
    case Spot(symbol, price) => s.(spot := s.spot[symbol := price])
    case Premium(key, price, ok, today) => PremiumStep(cfg, s, key, price, ok, today)
    case Halt => s.(guard := s.guard.(halted := true))
    case Resume => s.(guard := s.guard.(halted := false))
    case Status(today) => s.(guard := RollDay(s.guard, today))
  }

  function Run(cfg: Config, start: int, es: seq<Event>): State {
    if es == [] then State(FreshGuard(start), map[], map[]) else Step(cfg, Run(cfg, start, Front(es)), Last(es))
  }

  /** Signals come only for registered instruments. */
  predicate Registered(cfg: Config, es: seq<Event>) {
    forall i :: 0 <= i < |es| && es[i].Signal? ==> es[i].key in cfg.instruments
  }

  /** No trade closed along the run lost more than `l`. */
  predicate LossesWithin(cfg: Config, start: int, es: seq<Event>, l: real) {
    es == [] ||
    (&& LossesWithin(cfg, start, Front(es), l)
     && var s, e := Run(cfg, start, Front(es)), Last(es);
        (e.Premium? && e.key in s.open && PremiumUpdate(cfg, s, e.key, e.price, e.ok).closed ==>
           PremiumUpdate(cfg, s, e.key, e.price, e.ok).pos.pnl >= -l))
  }

  // ---------------------------------------------------------------- bounds over every interleaving

  predicate OpenOnly(cfg: Config, s: State) {
    && s.open.Keys <= cfg.instruments
    && forall k :: k in s.open ==> s.open[k].pos.status == Open || s.open[k].pos.status == Target1Booked
  }

  lemma SubsetSize<T>(a: set<T>, b: set<T>)
    requires a <= b
    ensures |a| <= |b|
  {
    assert b == a + (b - a);
    assert |b| == |a| + |b - a|;
  }

  lemma AddedOne<V>(m: map<string, V>, k: string, v: V)
    ensures |m[k := v]| == |m| + if k in m then 0 else 1
  {
    assert m[k := v].Keys == m.Keys + {k};
  }

  lemma RemovedOne<V>(m: map<string, V>, k: string)
    requires k in m
    ensures |m - {k}| == |m| - 1
  {
    assert (m - {k}).Keys == m.Keys - {k};
  }

  lemma StepStaysOpen(rules: Rules, plan: RiskPlan, p: Pos, price: real, ok: bool)
    requires p.status == Open || p.status == Target1Booked
    ensures var u := PriceStep(rules, plan, p, price, ok);
      u.closed || u.pos.status == Open || u.pos.status == Target1Booked
  {
  }

  /** The three ways a session moves, as seen by its guard and its number of open positions. */
  predicate KeepsCounts(g: Guard, g': Guard) {
    (g'.trades == g.trades && g'.pnl == g.pnl) || (g'.trades == 0 && g'.pnl == 0.0)
  }

  predicate Enters(limits: Limits, g: Guard, g': Guard) {
    g' == RollDay(g, g'.date) && Allows(limits, g')
  }

  predicate Moves(cfg: Config, s: State, e: Event, s': State) {
    var n, n' := |s.open|, |s'.open|;
    || (n' == n && KeepsCounts(s.guard, s'.guard))
    || (n' == n + 1 && Enters(cfg.limits, s.guard, s'.guard))
    || (n' + 1 == n && e.Premium? && e.key in s.open && PremiumUpdate(cfg, s, e.key, e.price, e.ok).closed
        && s'.guard == Record(s.guard, e.today, PremiumUpdate(cfg, s, e.key, e.price, e.ok).pos.pnl))
  }

  lemma SignalMoves(cfg: Config, s: State, e: Event)
    requires OpenOnly(cfg, s) && e.Signal? && e.key in cfg.instruments
    ensures OpenOnly(cfg, Step(cfg, s, e)) && Moves(cfg, s, e, Step(cfg, s, e))
  {
    var s' := Step(cfg, s, e);
    if s'.open != s.open {
      AddedOne(s.open, e.key, s'.open[e.key]);
      assert s'.open == s.open[e.key := s'.open[e.key]];
      assert s'.guard == RollDay(s.guard, e.today) && s'.guard.date == e.today;
    }
  }

  lemma PremiumMoves(cfg: Config, s: State, e: Event)
    requires OpenOnly(cfg, s) && e.Premium?
    ensures OpenOnly(cfg, Step(cfg, s, e)) && Moves(cfg, s, e, Step(cfg, s, e))
  {
    if e.key in s.open {
      var held := s.open[e.key];
      var u := PremiumUpdate(cfg, s, e.key, e.price, e.ok);
      StepStaysOpen(cfg.rules, held.plan, held.pos, e.price, e.ok);
      if u.closed {
        RemovedOne(s.open, e.key);
      } else {
        AddedOne(s.open, e.key, held.(pos := u.pos));
      }
    }
  }

  lemma StepMoves(cfg: Config, s: State, e: Event)
    requires OpenOnly(cfg, s) && (e.Signal? ==> e.key in cfg.instruments)
    ensures OpenOnly(cfg, Step(cfg, s, e)) && Moves(cfg, s, e, Step(cfg, s, e))
  {
    if e.Signal? {
      SignalMoves(cfg, s, e);
    } else if e.Premium? {
      PremiumMoves(cfg, s, e);
    }
  }

  lemma OpenAtMost(cfg: Config, s: State)
    requires OpenOnly(cfg, s)
    ensures |s.open| <= |cfg.instruments|
  {
    SubsetSize(s.open.Keys, cfg.instruments);
  }

  predicate TradesFit(cfg: Config, s: State) {
    s.guard.trades >= 0 && s.guard.trades + |s.open| <= cfg.limits.maxTrades + |cfg.instruments| - 1
  }

  lemma TradesStep(cfg: Config, s: State, e: Event, s': State)
    requires cfg.limits.maxTrades >= 1 && TradesFit(cfg, s) && Moves(cfg, s, e, s')
    requires |s.open| <= |cfg.instruments| && |s'.open| <= |cfg.instruments|
    ensures TradesFit(cfg, s')
  {
  }

  /** Trades closed on a day and positions open never exceed the limit by more than the other
      instruments: entries are counted only when they close. */
  lemma {:induction false} TradesBounded(cfg: Config, start: int, es: seq<Event>)
    requires cfg.limits.maxTrades >= 1 && Registered(cfg, es)
    ensures var s := Run(cfg, start, es);
      && OpenOnly(cfg, s) && s.guard.trades >= 0
      && s.guard.trades + |s.open| <= cfg.limits.maxTrades + |cfg.instruments| - 1
  {
    if es != [] {
      TradesBounded(cfg, start, Front(es));
      var s := Run(cfg, start, Front(es));
      assert Last(es) == es[|es| - 1];
      StepMoves(cfg, s, Last(es));
      OpenAtMost(cfg, s);
      OpenAtMost(cfg, Run(cfg, start, es));
      TradesStep(cfg, s, Last(es), Run(cfg, start, es));
    }
  }

  // ---------------------------------------------------------------- what the guard counts

  /** The result of the trade an event closes, if it closes one. */
  function ResultsOf(cfg: Config, s: State, e: Event): seq<real> {
    if e.Premium? && e.key in s.open && PremiumUpdate(cfg, s, e.key, e.price, e.ok).closed
    then [PremiumUpdate(cfg, s, e.key, e.price, e.ok).pos.pnl] else []
  }

  /** The date an event brings to the guard: a signal for a free instrument asks whether it may
      trade, a closing premium records a trade, a status request reads the guard. */
  function Stamp(cfg: Config, s: State, e: Event): Option<int> {
    match e
    case Signal(key, today, _, _, _, _) => if key in s.open then None else Some(today)
    case Premium(_, _, _, today) => if ResultsOf(cfg, s, e) != [] then Some(today) else None
    case Status(today) => Some(today)
    case _ => None
  }

  /** The last date brought to the guard, or the date it started on. */
  function LastDate(cfg: Config, start: int, es: seq<Event>): int {
    if es == [] then start
    else
      var stamp := Stamp(cfg, Run(cfg, start, Front(es)), Last(es));
      if stamp.Some? then stamp.value else LastDate(cfg, start, Front(es))
  }

  /** The last event brings a new date. */
  predicate NewDate(cfg: Config, start: int, es: seq<Event>)
    requires es != []
  {
    LastDate(cfg, start, es) != LastDate(cfg, start, Front(es))
  }

  /** The results of the trades closed since the last new date. */
  function ClosedToday(cfg: Config, start: int, es: seq<Event>): seq<real> {
    if es == [] then []
    else
      (if NewDate(cfg, start, es) then [] else ClosedToday(cfg, start, Front(es)))
      + ResultsOf(cfg, Run(cfg, start, Front(es)), Last(es))
  }

  /** Halted, and neither resumed nor on a new date since. */
  function HaltedNow(cfg: Config, start: int, es: seq<Event>): bool {
    if es == [] then false
    else if Last(es).Halt? then true
    else if Last(es).Resume? || NewDate(cfg, start, es) then false
    else HaltedNow(cfg, start, Front(es))
  }

  function Sum(xs: seq<real>): real { if xs == [] then 0.0 else Sum(Front(xs)) + Last(xs) }

  lemma SumMore(xs: seq<real>, x: real)
    ensures Sum(xs + [x]) == Sum(xs) + x
  {
    assert Front(xs + [x]) == xs;
  }

  lemma GuardStep(cfg: Config, s: State, e: Event)
    ensures var g, g', closed, stamp := s.guard, Step(cfg, s, e).guard, ResultsOf(cfg, s, e), Stamp(cfg, s, e);
      var rolls := stamp.Some? && stamp.value != g.date;
      && g'.date == (if stamp.Some? then stamp.value else g.date)
      && g'.trades == (if rolls then 0 else g.trades) + |closed|
      && g'.pnl == (if rolls then 0.0 else g.pnl) + (if closed == [] then 0.0 else closed[0])
      && g'.halted == if e.Halt? then true else if e.Resume? || rolls then false else g.halted
  {
  }

  /** The guard is of the last date brought to it; its figures are the number and the sum of the
      trades closed since that date began, and a new date lifts a halt. */
  lemma {:induction false} GuardCountsToday(cfg: Config, start: int, es: seq<Event>)
    ensures var g, closed := Run(cfg, start, es).guard, ClosedToday(cfg, start, es);
      && g.date == LastDate(cfg, start, es)
      && g.trades == |closed| && g.pnl == Sum(closed)
      && g.halted == HaltedNow(cfg, start, es)
  {
    if es != [] {
      GuardCountsToday(cfg, start, Front(es));
      var s := Run(cfg, start, Front(es));
      GuardStep(cfg, s, Last(es));
      var closed := ResultsOf(cfg, s, Last(es));
      var base := if NewDate(cfg, start, es) then [] else ClosedToday(cfg, start, Front(es));
      if closed == [] {
        assert base + closed == base;
      } else {
        assert closed == [closed[0]];
        SumMore(base, closed[0]);
      }
    }
  }

  /** Whether a new entry is allowed on a date: on a new one exactly when the limits leave room for
      any trade at all, on the guard's own exactly when it is not halted, the day's result is above
      the loss limit and its trades are below the trade limit. */
  lemma CanTradeIff(cfg: Config, start: int, es: seq<Event>, today: int)
    ensures var maxLoss, closed := MaxLoss(cfg.limits), ClosedToday(cfg, start, es);
      Allows(cfg.limits, RollDay(Run(cfg, start, es).guard, today)) <==>
        if today != LastDate(cfg, start, es) then cfg.limits.maxTrades >= 1 && maxLoss > 0.0
        else !HaltedNow(cfg, start, es) && Sum(closed) > -maxLoss && |closed| < cfg.limits.maxTrades
  {
    GuardCountsToday(cfg, start, es);
  }

  /** Nothing is opened while halted, over the loss limit or at the trade limit on the same day. */
  lemma TrippedGuardOpensNothing(cfg: Config, s: State, e: Event)
    requires OpenOnly(cfg, s) && (e.Signal? ==> e.key in cfg.instruments)
    requires s.guard.halted || s.guard.pnl <= -MaxLoss(cfg.limits) || s.guard.trades >= cfg.limits.maxTrades
    requires Step(cfg, s, e).guard.date == s.guard.date
    ensures |Step(cfg, s, e).open| <= |s.open|
  {
    StepMoves(cfg, s, e);
  }

  /** No event of `more` brings another date than the one `es` ended on. */
  predicate DateHeld(cfg: Config, start: int, es: seq<Event>, more: seq<Event>) {
    forall j :: 0 <= j < |more| ==>
      var stamp := Stamp(cfg, Run(cfg, start, es + more[..j]), more[j]);
      stamp.None? || stamp.value == LastDate(cfg, start, es)
  }

  lemma LimitStep(cfg: Config, s: State, e: Event)
    requires s.guard.trades >= cfg.limits.maxTrades
    requires Stamp(cfg, s, e).Some? ==> Stamp(cfg, s, e).value == s.guard.date
    ensures var s' := Step(cfg, s, e);
      s'.open.Keys <= s.open.Keys && s'.guard.trades >= s.guard.trades && s'.guard.date == s.guard.date
  {
    GuardStep(cfg, s, e);
  }

  lemma DateHeldFront(cfg: Config, start: int, es: seq<Event>, more: seq<Event>)
    requires more != [] && DateHeld(cfg, start, es, more)
    ensures DateHeld(cfg, start, es, Front(more))
    ensures var stamp := Stamp(cfg, Run(cfg, start, es + Front(more)), Last(more));
      stamp.None? || stamp.value == LastDate(cfg, start, es)
  {
    var f := Front(more);
    assert forall j :: 0 <= j < |f| ==> f[..j] == more[..j] && f[j] == more[j];
    assert more[..|f|] == f && more[|f|] == Last(more);
  }

  /** Once the trade limit is reached, no event of that day opens a position: whatever resumes,
      profits and signals follow, the positions held are among those held then. */
  lemma {:induction false} LimitEndsTheDay(cfg: Config, start: int, es: seq<Event>, more: seq<Event>)
    requires Run(cfg, start, es).guard.trades >= cfg.limits.maxTrades && DateHeld(cfg, start, es, more)
    ensures Run(cfg, start, es + more).open.Keys <= Run(cfg, start, es).open.Keys
    ensures Run(cfg, start, es + more).guard.trades >= Run(cfg, start, es).guard.trades
    ensures Run(cfg, start, es + more).guard.date == LastDate(cfg, start, es)
  {
    if more == [] {
      assert es + more == es;
      GuardCountsToday(cfg, start, es);
    } else {
      var f := Front(more);
      assert es + more == es + f + [Last(more)];
      DateHeldFront(cfg, start, es, more);
      LimitEndsTheDay(cfg, start, es, f);
      RunMore(cfg, start, es + f, Last(more));
      LimitStep(cfg, Run(cfg, start, es + f), Last(more));
    }
  }

  // ---------------------------------------------------------------- the limit is overshot

  /** Entry and stop at 100: closing at 100 neither gains nor loses. */
  function FlatPlan(cfg: Config, key: string): RiskPlan { PlanOf(cfg, key, 100.0, 100.0, Choice(key, 100.0, 0.0)) }

  lemma FlatLevels(cfg: Config, key: string)
    ensures var p := FlatPlan(cfg, key); p.entryPrice == 100.0 && p.slPrice == 100.0 && p.target1Price == 100.0
  {
    assert OnPaiseGrid(100.0) by { assert 100.0 * 100.0 == 10000.0; }
    RoundGrid(100.0);
    assert SlPoints(100.0, 100.0, 0.0) == 0.0;
    assert 100.0 + 0.0 * cfg.target1Rr == 100.0;
  }

  function Enter(key: string): Event { Signal(key, 0, 100.0, Some(Choice(key, 100.0, 0.0)), true, [Filled(Some(1))]) }

  function Leave(key: string): Event { Premium(key, 100.0, true, 0) }

  function Flat(trades: nat, spot: map<string, real>): State { State(Guard(0, trades, 0.0, false), map[], spot) }

  function HeldFlat(cfg: Config, key: string): Held { Held(key, FlatPlan(cfg, key), Opened(FlatPlan(cfg, key), 1)) }

  predicate AtHundred(spot: map<string, real>, key: string) { key in spot && spot[key] == 100.0 }

  lemma EnterDoes(cfg: Config, s: State, key: string)
    requires s.guard.date == 0 && Allows(cfg.limits, s.guard) && key !in s.open && AtHundred(s.spot, key)
    ensures Step(cfg, s, Enter(key)) == s.(open := s.open[key := HeldFlat(cfg, key)])
  {
    var polls := [Filled(Some(1))];
    assert polls[0].Filled? && FirstFill(polls, FlatPlan(cfg, key).quantity) == Some(1);
  }

  lemma LeaveDoes(cfg: Config, s: State, key: string)
    requires s.guard.date == 0 && key in s.open && s.open[key] == HeldFlat(cfg, key)
    ensures Step(cfg, s, Leave(key)) == State(s.guard.(trades := s.guard.trades + 1), s.open - {key}, s.spot)
  {
    FlatLevels(cfg, key);
    assert Gain(1, 100.0, 100.0) == 0.0;
  }

  lemma FlatAllows(cfg: Config, n: nat)
    requires n < cfg.limits.maxTrades && MaxLoss(cfg.limits) > 0.0
    ensures Allows(cfg.limits, Guard(0, n, 0.0, false))
  {
  }

  lemma RoundTrip(cfg: Config, spot: map<string, real>, key: string, n: nat)
    requires AtHundred(spot, key) && Allows(cfg.limits, Guard(0, n, 0.0, false))
    ensures Step(cfg, Step(cfg, Flat(n, spot), Enter(key)), Leave(key)) == Flat(n + 1, spot)
  {
    EnterDoes(cfg, Flat(n, spot), key);
    var s := State(Guard(0, n, 0.0, false), map[key := HeldFlat(cfg, key)], spot);
    assert Flat(n, spot).open[key := HeldFlat(cfg, key)] == s.open;
    LeaveDoes(cfg, s, key);
    assert s.open - {key} == map[];
  }

  lemma OneRoundTrip(cfg: Config, spot: map<string, real>, key: string, n: nat, es: seq<Event>)
    requires AtHundred(spot, key) && Allows(cfg.limits, Guard(0, n, 0.0, false)) && Run(cfg, 0, es) == Flat(n, spot)
    ensures Run(cfg, 0, es + [Enter(key)] + [Leave(key)]) == Flat(n + 1, spot)
  {
    RunMore(cfg, 0, es, Enter(key));
    RunMore(cfg, 0, es + [Enter(key)], Leave(key));
    assert Run(cfg, 0, es + [Enter(key)] + [Leave(key)]) == Step(cfg, Step(cfg, Flat(n, spot), Enter(key)), Leave(key));
    RoundTrip(cfg, spot, key, n);
  }

  lemma RunMore(cfg: Config, start: int, es: seq<Event>, e: Event)
    ensures Run(cfg, start, es + [e]) == Step(cfg, Run(cfg, start, es), e)
  {
    assert Front(es + [e]) == es;
  }

  ghost predicate Reaches(cfg: Config, s: State) {
    exists es :: Registered(cfg, es) && Run(cfg, 0, es) == s
  }

  lemma ReachMore(cfg: Config, spot: map<string, real>, es: seq<Event>, key: string, n: nat)
    requires AtHundred(spot, key) && key in cfg.instruments && Registered(cfg, es) && Run(cfg, 0, es) == Flat(n, spot)
    requires Allows(cfg.limits, Guard(0, n, 0.0, false))
    ensures Reaches(cfg, Flat(n + 1, spot))
  {
    OneRoundTrip(cfg, spot, key, n, es);
    assert Registered(cfg, es + [Enter(key)] + [Leave(key)]);
  }

  /** Any number of flat round trips up to the limit can be made. */
  lemma {:induction false} ReachFlat(cfg: Config, spot: map<string, real>, key: string, n: nat)
    requires Reaches(cfg, Flat(0, spot)) && AtHundred(spot, key)
    requires key in cfg.instruments && n <= cfg.limits.maxTrades && MaxLoss(cfg.limits) > 0.0
    ensures Reaches(cfg, Flat(n, spot))
  {
    if n > 0 {
      ReachFlat(cfg, spot, key, n - 1);
      FlatAllows(cfg, n - 1);
      var es :| Registered(cfg, es) && Run(cfg, 0, es) == Flat(n - 1, spot);
      ReachMore(cfg, spot, es, key, n - 1);
    }
  }

  lemma EnterBoth(cfg: Config, spot: map<string, real>, a: string, b: string, n: nat)
    requires a != b && AtHundred(spot, a) && AtHundred(spot, b) && Allows(cfg.limits, Guard(0, n, 0.0, false))
    ensures Step(cfg, Step(cfg, Flat(n, spot), Enter(a)), Enter(b))
         == State(Guard(0, n, 0.0, false), map[a := HeldFlat(cfg, a), b := HeldFlat(cfg, b)], spot)
  {
    EnterDoes(cfg, Flat(n, spot), a);
    var s := State(Guard(0, n, 0.0, false), map[a := HeldFlat(cfg, a)], spot);
    assert Flat(n, spot).open[a := HeldFlat(cfg, a)] == s.open;
    EnterDoes(cfg, s, b);
    assert s.open[b := HeldFlat(cfg, b)] == map[a := HeldFlat(cfg, a), b := HeldFlat(cfg, b)];
  }

  lemma LeaveBoth(cfg: Config, spot: map<string, real>, a: string, b: string, n: nat)
    requires a != b
    ensures Step(cfg, Step(cfg, State(Guard(0, n, 0.0, false), map[a := HeldFlat(cfg, a), b := HeldFlat(cfg, b)], spot), Leave(a)), Leave(b))
         == Flat(n + 2, spot)
  {
    var s := State(Guard(0, n, 0.0, false), map[a := HeldFlat(cfg, a), b := HeldFlat(cfg, b)], spot);
    LeaveDoes(cfg, s, a);
    assert s.open - {a} == map[b := HeldFlat(cfg, b)];
    var s' := State(Guard(0, n + 1, 0.0, false), map[b := HeldFlat(cfg, b)], spot);
    LeaveDoes(cfg, s', b);
    assert s'.open - {b} == map[];
  }

  lemma BothTogether(cfg: Config, spot: map<string, real>, es: seq<Event>, a: string, b: string, n: nat)
    requires a != b && AtHundred(spot, a) && AtHundred(spot, b)
    requires Run(cfg, 0, es) == Flat(n, spot) && Allows(cfg.limits, Guard(0, n, 0.0, false))
    ensures Run(cfg, 0, es + [Enter(a)] + [Enter(b)] + [Leave(a)] + [Leave(b)]) == Flat(n + 2, spot)
  {
    var es1, es2 := es + [Enter(a)], es + [Enter(a)] + [Enter(b)];
    var es3 := es2 + [Leave(a)];
    RunMore(cfg, 0, es, Enter(a));
    RunMore(cfg, 0, es1, Enter(b));
    EnterBoth(cfg, spot, a, b, n);
    assert Run(cfg, 0, es2) == State(Guard(0, n, 0.0, false), map[a := HeldFlat(cfg, a), b := HeldFlat(cfg, b)], spot);
    RunMore(cfg, 0, es2, Leave(a));
    RunMore(cfg, 0, es3, Leave(b));
    LeaveBoth(cfg, spot, a, b, n);
  }

  function BothSpots(a: string, b: string): map<string, real> { map[a := 100.0, b := 100.0] }

  lemma SpotsKnown(cfg: Config, a: string, b: string)
    ensures Reaches(cfg, Flat(0, BothSpots(a, b)))
  {
    var one, two := [Spot(a, 100.0)], [Spot(a, 100.0), Spot(b, 100.0)];
    assert Front(one) == [] && Front(two) == one;
    assert Run(cfg, 0, one) == Flat(0, map[a := 100.0]);
    assert map[a := 100.0][b := 100.0] == BothSpots(a, b);
    assert Run(cfg, 0, two) == Flat(0, BothSpots(a, b));
    assert Registered(cfg, two);
  }

  /** Two instruments entered on the last allowed trade both close. */
  lemma LimitOvershot(cfg: Config, a: string, b: string)
    requires a != b && a in cfg.instruments && b in cfg.instruments
    requires cfg.limits.maxTrades >= 1 && MaxLoss(cfg.limits) > 0.0
    ensures Reaches(cfg, Flat(cfg.limits.maxTrades + 1, BothSpots(a, b)))
  {
    var n, spot := cfg.limits.maxTrades - 1, BothSpots(a, b);
    SpotsKnown(cfg, a, b);
    ReachFlat(cfg, spot, a, n);
    FlatAllows(cfg, n);
    var es :| Registered(cfg, es) && Run(cfg, 0, es) == Flat(n, spot);
    BothTogether(cfg, spot, es, a, b, n);
    assert Registered(cfg, es + [Enter(a)] + [Enter(b)] + [Leave(a)] + [Leave(b)]);
  }

  /** No day ever closes more than max_trades_per_day trades exactly when at most one instrument
      is traded: positions opened together are counted only when they close. */
  lemma TradeLimitHoldsIff(cfg: Config)
    requires cfg.limits.maxTrades >= 1 && MaxLoss(cfg.limits) > 0.0
    ensures (forall start, es :: Registered(cfg, es) ==> Run(cfg, start, es).guard.trades <= cfg.limits.maxTrades)
       <==> |cfg.instruments| <= 1
  {
    if |cfg.instruments| <= 1 {
      forall start, es | Registered(cfg, es) ensures Run(cfg, start, es).guard.trades <= cfg.limits.maxTrades {
        TradesBounded(cfg, start, es);
      }
    } else {
      var a :| a in cfg.instruments;
      assert |cfg.instruments - {a}| >= 1;
      var b :| b in cfg.instruments - {a};
      LimitOvershot(cfg, a, b);
      var es :| Registered(cfg, es) && Run(cfg, 0, es) == Flat(cfg.limits.maxTrades + 1, BothSpots(a, b));
      assert Run(cfg, 0, es).guard.trades > cfg.limits.maxTrades;
    }
  }

  // ---------------------------------------------------------------- the loss bound

  /** `n` losses of `l`. */
  function Times(n: nat, l: real): real { if n == 0 then 0.0 else Times(n - 1, l) + l }

  lemma TimesMonotone(a: nat, b: nat, l: real)
    requires a <= b && l >= 0.0
    ensures Times(a, l) <= Times(b, l)
  {
  }

  lemma {:induction false} TimesIsProduct(n: nat, l: real)
    ensures Times(n, l) == n as real * l
  {
    if n > 0 {
      TimesIsProduct(n - 1, l);
      assert (n - 1) as real == n as real - 1.0;
    }
  }

  /** What the day can still lose: the realized result less `l` for each open position. */
  predicate LossFits(cfg: Config, s: State, l: real) {
    s.guard.pnl - Times(|s.open|, l) > -MaxLoss(cfg.limits) - Times(|cfg.instruments|, l)
  }

  lemma LossStep(cfg: Config, s: State, e: Event, s': State, l: real)
    requires l >= 0.0 && MaxLoss(cfg.limits) > 0.0 && LossFits(cfg, s, l) && Moves(cfg, s, e, s')
    requires |s.open| <= |cfg.instruments| && |s'.open| <= |cfg.instruments|
    requires e.Premium? && e.key in s.open && PremiumUpdate(cfg, s, e.key, e.price, e.ok).closed ==>
      PremiumUpdate(cfg, s, e.key, e.price, e.ok).pos.pnl >= -l
    ensures LossFits(cfg, s', l)
  {
    TimesMonotone(|s'.open|, |cfg.instruments|, l);
    TimesMonotone(|s.open|, |cfg.instruments|, l);
  }

  lemma {:induction false} LossFitsAlways(cfg: Config, start: int, es: seq<Event>, l: real)
    requires l >= 0.0 && MaxLoss(cfg.limits) > 0.0 && Registered(cfg, es) && LossesWithin(cfg, start, es, l)
    ensures OpenOnly(cfg, Run(cfg, start, es)) && LossFits(cfg, Run(cfg, start, es), l)
  {
    if es == [] {
      TimesMonotone(0, |cfg.instruments|, l);
    } else {
      LossFitsAlways(cfg, start, Front(es), l);
      var s := Run(cfg, start, Front(es));
      assert Last(es) == es[|es| - 1];
      StepMoves(cfg, s, Last(es));
      OpenAtMost(cfg, s);
      OpenAtMost(cfg, Run(cfg, start, es));
      LossStep(cfg, s, Last(es), Run(cfg, start, es), l);
    }
  }

  lemma LossInRupees(pnl: real, open: nat, k: nat, l: real, maxLoss: real)
    requires l >= 0.0 && pnl - Times(open, l) > -maxLoss - Times(k, l)
    ensures pnl > -(maxLoss + Times(k, l))
  {
    TimesMonotone(0, open, l);
  }

  /** Below the loss limit by one further loss of `l` for each instrument. */
  function WorstDay(cfg: Config, l: real): real { -(MaxLoss(cfg.limits) + Times(|cfg.instruments|, l)) }

  lemma WorstDayInRupees(cfg: Config, l: real, maxLoss: real, further: real)
    requires maxLoss == MaxLoss(cfg.limits) && further == |cfg.instruments| as real * l
    ensures WorstDay(cfg, l) == -(maxLoss + further)
  {
    TimesIsProduct(|cfg.instruments|, l);
  }

  /** If no trade loses more than `l`, the day's realized result stays above the loss limit
      and one further loss for each instrument. */
  lemma DailyLossBounded(cfg: Config, start: int, es: seq<Event>, l: real)
    requires l >= 0.0 && MaxLoss(cfg.limits) > 0.0 && Registered(cfg, es) && LossesWithin(cfg, start, es, l)
    ensures Run(cfg, start, es).guard.pnl > WorstDay(cfg, l)
  {
    LossFitsAlways(cfg, start, es, l);
    var s := Run(cfg, start, es);
    LossInRupees(s.guard.pnl, |s.open|, |cfg.instruments|, l, MaxLoss(cfg.limits));
  }

  // ---------------------------------------------------------------- the two position maps

  /** The maps, by spot key and by option symbol, name the same positions, each once. */
  ghost predicate Linked(open: map<string, Position>, bySymbol: map<string, Position>) {
    && (forall k :: k in open ==> open[k].instrumentKey in bySymbol && bySymbol[open[k].instrumentKey] == open[k])
    && (forall s :: s in bySymbol ==> bySymbol[s].instrumentKey == s && exists k :: k in open && open[k] == bySymbol[s])
    && (forall j, k :: j in open && k in open && open[j] == open[k] ==> j == k)
  }

  /** A new position keeps the maps linked exactly when its contract was not tracked yet. */
  lemma LinkedAfterOpen(open: map<string, Position>, bySymbol: map<string, Position>, key: string, p: Position)
    requires Linked(open, bySymbol) && key !in open && forall k :: k in open ==> open[k] != p
    ensures Linked(open[key := p], bySymbol[p.instrumentKey := p]) <==> p.instrumentKey !in bySymbol
  {
    var open', by' := open[key := p], bySymbol[p.instrumentKey := p];
    if p.instrumentKey in bySymbol {
      var k :| k in open && open[k] == bySymbol[p.instrumentKey];
      assert k in open' && open'[k] == open[k];
      assert by'[open'[k].instrumentKey] == p;
    } else {
      forall s | s in by' ensures by'[s].instrumentKey == s && exists k :: k in open' && open'[k] == by'[s] {
        if s == p.instrumentKey {
          assert key in open' && open'[key] == by'[s];
        } else {
          var k :| k in open && open[k] == bySymbol[s];
          assert k in open' && open'[k] == by'[s];
        }
      }
    }
  }

  lemma LinkedAfterClose(open: map<string, Position>, bySymbol: map<string, Position>, key: string)
    requires Linked(open, bySymbol) && key in open
    ensures Linked(open - {key}, bySymbol - {open[key].instrumentKey})
  {
    var open', by' := open - {key}, bySymbol - {open[key].instrumentKey};
    forall s | s in by' ensures by'[s].instrumentKey == s && exists k :: k in open' && open'[k] == by'[s] {
      var k :| k in open && open[k] == bySymbol[s];
      assert k in open' && open'[k] == by'[s];
    }
  }

  /** When every contract belongs to one underlying, a free instrument's contract is free too. */
  lemma ContractsOfOwnUnderlying(open: map<string, Position>, bySymbol: map<string, Position>,
                                 underlying: string -> string, key: string, symbol: string)
    requires Linked(open, bySymbol) && (forall k :: k in open ==> underlying(open[k].instrumentKey) == k)
    requires underlying(symbol) == key && key !in open
    ensures symbol !in bySymbol
  {
    forall s | s in bySymbol ensures underlying(s) in open {
      var k :| k in open && open[k] == bySymbol[s];
    }
  }

  /** Every contract offered to an instrument is one of its own. */
  predicate OffersOwn(es: seq<Event>, underlying: string -> string) {
    forall i :: 0 <= i < |es| && es[i].Signal? && es[i].choice.Some? ==> underlying(es[i].choice.value.symbol) == es[i].key
  }

  predicate HoldsOwn(s: State, underlying: string -> string) {
    forall k :: k in s.open ==> underlying(s.open[k].symbol) == k
  }

  lemma StepHoldsOwn(cfg: Config, s: State, e: Event, underlying: string -> string)
    requires HoldsOwn(s, underlying)
    requires e.Signal? && e.choice.Some? ==> underlying(e.choice.value.symbol) == e.key
    ensures HoldsOwn(Step(cfg, s, e), underlying)
  {
    forall k | k in Step(cfg, s, e).open ensures underlying(Step(cfg, s, e).open[k].symbol) == k {
      assert k in s.open ==> underlying(s.open[k].symbol) == k;
    }
  }

  /** Over every run in which instruments are offered their own contracts, no two positions are
      ever open in the same contract. */
  lemma {:induction false} ContractsNeverShared(cfg: Config, start: int, es: seq<Event>, underlying: string -> string)
    requires OffersOwn(es, underlying)
    ensures var open := Run(cfg, start, es).open;
      && HoldsOwn(Run(cfg, start, es), underlying)
      && (forall j, k :: j in open && k in open && j != k ==> open[j].symbol != open[k].symbol)
  {
    if es != [] {
      ContractsNeverShared(cfg, start, Front(es), underlying);
      assert Last(es) == es[|es| - 1];
      StepHoldsOwn(cfg, Run(cfg, start, Front(es)), Last(es), underlying);
    }
  }

  ghost function HeldBy(p: Position): Held
    reads p
  {
    Held(p.instrumentKey, p.plan, p.View())
  }

  ghost function ViewOf(open: map<string, Position>): map<string, Held>
    reads open.Values
  {
    map k | k in open :: HeldBy(open[k])
  }

  ghost predicate AllOpen(open: map<string, Position>)
    reads open.Values
  {
    forall k :: k in open ==> open[k].status == Open || open[k].status == Target1Booked
  }

  lemma ViewAfterOpen(open: map<string, Position>, key: string, p: Position)
    ensures ViewOf(open[key := p]) == ViewOf(open)[key := HeldBy(p)]
  {
  }

  lemma Forgotten(m: map<string, Held>, key: string, h: Held)
    ensures m[key := h] - {key} == m - {key}
  {
  }

  lemma ViewAfterClose(open: map<string, Position>, key: string)
    ensures ViewOf(open - {key}) == ViewOf(open) - {key}
  {
  }

  // ---------------------------------------------------------------- session, as an object

  class TradingSession {
    const cfg: Config
    const guard: DailyGuard
    const manager: PositionManager
    var openPositions: map<string, Position>  // by spot key
    var bySymbol: map<string, Position>       // by option symbol
    var latestSpot: map<string, real>

    constructor (cfg: Config, today: int)
      ensures this.cfg == cfg && Valid() && View() == State(FreshGuard(today), map[], map[])
      ensures fresh(guard) && fresh(manager)
    {
      this.cfg := cfg;
      guard := new DailyGuard(cfg.limits, today);
      manager := new PositionManager(cfg.rules);
      openPositions, bySymbol, latestSpot := map[], map[], map[];
    }

    /** Both maps name the same positions and none of them is CLOSED. */
    ghost predicate Valid()
      reads this, openPositions.Values
    {
      && guard.limits == cfg.limits && manager.rules == cfg.rules
      && Linked(openPositions, bySymbol) && AllOpen(openPositions)
    }

    ghost function View(): State
      reads this, guard, openPositions.Values
    {
      State(guard.View(), ViewOf(openPositions), latestSpot)
    }

    method Track(key: string, position: Position)
      requires Valid() && key !in openPositions && forall k :: k in openPositions ==> openPositions[k] != position
      requires position.status == Open
      modifies this
      ensures openPositions == old(openPositions)[key := position]
      ensures ViewOf(openPositions) == old(ViewOf(openPositions))[key := HeldBy(position)]
      ensures Valid() <==> position.instrumentKey !in old(bySymbol)
      ensures latestSpot == old(latestSpot)
    {
      LinkedAfterOpen(openPositions, bySymbol, key, position);
      ViewAfterOpen(openPositions, key, position);
      openPositions := openPositions[key := position];
      bySymbol := bySymbol[position.instrumentKey := position];
      assert AllOpen(openPositions);
    }

    /** The maps stay consistent exactly when a new position's contract was not tracked yet. */
    method HandleSignal(key: string, today: int, spotSl: real, choice: Option<Choice>, entryOk: bool, polls: seq<Poll>)
      requires Valid() && key in cfg.instruments
      modifies this, guard
      ensures View() == SignalStep(cfg, old(View()), key, today, spotSl, choice, entryOk, polls)
      ensures openPositions == old(openPositions) ==> Valid()
      ensures openPositions != old(openPositions) ==>
        && key !in old(openPositions) && choice.Some?
        && (Valid() <==> choice.value.symbol !in old(bySymbol))
    {
      if key in openPositions { return; }
      var canTrade := guard.CanTrade(today);
      if !canTrade { return; }
      if choice.None? { return; }
      if key !in latestSpot { return; }
      var plan := PlanOf(cfg, key, latestSpot[key], spotSl, choice.value);
      Enter(key, Offer(choice.value.symbol, plan), entryOk, polls);
    }

    /** The entry order, and both maps when it fills. */
    method Enter(key: string, offer: Offer, entryOk: bool, polls: seq<Poll>)
      requires Valid() && key !in openPositions
      modifies this
      ensures var fill := FirstFill(polls, offer.plan.quantity);
        && (entryOk && fill.Some? ==>
              && openPositions != old(openPositions) && (Valid() <==> offer.symbol !in old(bySymbol))
              && ViewOf(openPositions) == old(ViewOf(openPositions))[key := Held(offer.symbol, offer.plan, Opened(offer.plan, fill.value))])
        && (!entryOk || fill.None? ==>
              Valid() && openPositions == old(openPositions) && ViewOf(openPositions) == old(ViewOf(openPositions)))
      ensures latestSpot == old(latestSpot)
    {
      var position := manager.OpenPosition(offer.symbol, offer.plan, entryOk, polls);
      assert ViewOf(openPositions) == old(ViewOf(openPositions));
      if position != null {
        Track(key, position);
      }
    }

    /** One update of the position held for `holder`, as seen in the view. */
    method Drive(position: Position, ghost holder: string, price: real, ok: bool) returns (closedNow: bool)
      requires Valid() && holder in openPositions && openPositions[holder] == position
      modifies manager, position
      ensures var u := PriceStep(cfg.rules, position.plan, old(position.View()), price, ok);
        && closedNow == u.closed && position.View() == u.pos
        && ViewOf(openPositions) == old(ViewOf(openPositions))[holder := old(HeldBy(position)).(pos := u.pos)]
        && (!closedNow ==> Valid())
        && AllOpen(openPositions - {holder})
    {
      var calls := |manager.closed|;
      StepStaysOpen(cfg.rules, position.plan, position.View(), price, ok);
      manager.OnPriceUpdate(position, price, ok);
      closedNow := |manager.closed| > calls;
      assert forall k :: k in openPositions && k != holder ==>
        HeldBy(openPositions[k]) == old(HeldBy(openPositions[k]));
    }

    method OnContractTick(symbol: string, price: real, ok: bool, today: int, ghost holder: string)
      requires Valid() && symbol in bySymbol && holder in openPositions && openPositions[holder] == bySymbol[symbol]
      modifies this, guard, manager, openPositions.Values
      ensures Valid()
      ensures var u := PremiumUpdate(cfg, old(View()), holder, price, ok);
        View() == Settled(old(View()), holder, u, today)
    {
      var position := bySymbol[symbol];
      ghost var before := ViewOf(openPositions);
      var closedNow := Drive(position, holder, price, ok);
      Forgotten(before, holder, ViewOf(openPositions)[holder]);
      if closedNow {
        Retire(position, today, holder);
      }
    }

    /** A tick of a tracked contract drives its position; any other tick leaves them alone. */
    method OnTick(symbol: string, price: real, ok: bool, today: int) returns (ghost holder: string)
      requires Valid()
      modifies this, guard, manager, openPositions.Values
      ensures Valid()
      ensures symbol !in old(bySymbol) ==> View() == old(View())
      ensures symbol in old(bySymbol) ==>
        && holder in old(openPositions) && old(openPositions)[holder] == old(bySymbol)[symbol]
        && View() == PremiumStep(cfg, old(View()), holder, price, ok, today)
    {
      holder := "";
      if symbol in bySymbol {
        holder :| holder in openPositions && openPositions[holder] == bySymbol[symbol];
        OnContractTick(symbol, price, ok, today, holder);
      }
    }

    /** The on_closed callback, as seen in the view. */
    method Retire(position: Position, today: int, ghost holder: string)
      requires Linked(openPositions, bySymbol) && holder in openPositions && openPositions[holder] == position
      requires AllOpen(openPositions - {holder}) && guard.limits == cfg.limits && manager.rules == cfg.rules
      modifies this, guard
      ensures Valid()
      ensures View() == State(Record(old(guard.View()), today, position.realizedPnl), old(ViewOf(openPositions)) - {holder}, latestSpot)
      ensures latestSpot == old(latestSpot)
    {
      LinkedAfterClose(openPositions, bySymbol, holder);
      ViewAfterClose(openPositions, holder);
      OnPositionClosed(position, today, holder);
    }

    method OnPositionClosed(position: Position, today: int, ghost key: string)
      requires Linked(openPositions, bySymbol) && key in openPositions && openPositions[key] == position
      modifies this, guard
      ensures guard.View() == Record(old(guard.View()), today, position.realizedPnl)
      ensures openPositions == old(openPositions) - {key}
      ensures bySymbol == old(bySymbol) - {position.instrumentKey} && latestSpot == old(latestSpot)
    {
      guard.RecordTradeClosed(position.realizedPnl, today);
      var todo := openPositions.Keys;
      while todo != {}
        invariant todo <= old(openPositions).Keys
        invariant openPositions == old(openPositions) - (if key in todo then {} else {key})
        invariant bySymbol == old(bySymbol) && latestSpot == old(latestSpot)
        invariant guard.View() == Record(old(guard.View()), today, position.realizedPnl)
        decreases todo
      {
        var spotKey :| spotKey in todo;
        if openPositions[spotKey] == position {
          openPositions := openPositions - {spotKey};
        }
        todo := todo - {spotKey};
      }
      bySymbol := bySymbol - {position.instrumentKey};
    }
  }
}
