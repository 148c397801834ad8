/** execution/position_manager.py: one position from entry to exit.

    `ok` is the broker's answer to the exit order of an update; an update places at most one.
 */
module Positions {
  import opened Basics
  import opened RiskPlans

  datatype Status = PendingEntry | Open | Target1Booked | Closed

  datatype Reason = Target1FullExit | SlHit | TslHit

  /** The mutable part of a Position. */
  datatype Pos = Pos(status: Status, filled: int, remaining: int, currentSl: real, best: real,
                     pnl: real, reason: Option<Reason>)

  datatype Rules = Rules(trail: real, bookingPct: int)

  datatype ExitTag = T1Exit | FinalExit

  datatype ExitOrder = ExitOrder(tag: ExitTag, qty: int, price: real, accepted: bool)

  /** A position after an update, the exit orders placed, and whether on_closed was called. */
  datatype Update = Update(pos: Pos, orders: seq<ExitOrder>, closed: bool)

  function Gain(qty: int, price: real, entry: real): real { qty as real * (price - entry) }

  function Share(rules: Rules, remaining: int): real { remaining as real * (rules.bookingPct as real / 100.0) }

  /** At least one unit, and otherwise no more than `most`. */
  function Clamp(n: int, most: int): int {
    var capped := if n <= most then n else most;
    if capped > 1 then capped else 1
  }

  function BookQty(rules: Rules, remaining: int): int { Clamp(RoundHalfEven(Share(rules, remaining)), remaining) }

  function Opened(plan: RiskPlan, fill: int): Pos {
    Pos(Open, fill, fill, plan.slPrice, plan.entryPrice, 0.0, None)
  }

  function ClosePosition(plan: RiskPlan, p: Pos, price: real, reason: Reason, ok: bool): Update {
    if p.remaining > 0 then
      var order := ExitOrder(FinalExit, p.remaining, price, ok);
      var p1 := if ok then p.(pnl := p.pnl + Gain(p.remaining, price, plan.entryPrice), remaining := 0) else p;
      Update(p1.(status := Closed, reason := Some(reason)), [order], true)
    else Update(p.(status := Closed, reason := Some(reason)), [], true)
  }

  function BookTarget1(rules: Rules, plan: RiskPlan, p: Pos, price: real, ok: bool): Update {
    var qty := BookQty(rules, p.remaining);
    var order := ExitOrder(T1Exit, qty, price, ok);
    if !ok then Update(p, [order], false)
    else
      var p1 := p.(remaining := p.remaining - qty, pnl := p.pnl + Gain(qty, price, plan.entryPrice),
                   status := Target1Booked, currentSl := plan.entryPrice);
      if p1.remaining <= 0 then
        var u := ClosePosition(plan, p1, price, Target1FullExit, ok);
        u.(orders := [order] + u.orders)
      else Update(p1, [order], false)
  }

  function PriceStep(rules: Rules, plan: RiskPlan, p: Pos, price: real, ok: bool): Update {
    if p.status == Closed then Update(p, [], false)
    else
      var p1 := p.(best := Max(p.best, price));
      if p1.status == Open && price >= plan.target1Price then BookTarget1(rules, plan, p1, price, ok)
      else
        var p2 := if p1.status == Target1Booked && p1.best - rules.trail > p1.currentSl
                  then p1.(currentSl := p1.best - rules.trail) else p1;
        if price <= p2.currentSl then
          ClosePosition(plan, p2, price, if p2.status == Target1Booked then TslHit else SlHit, ok)
        else Update(p2, [], false)
  }

  // ---------------------------------------------------------------- whole lives

  datatype Quote = Quote(price: real, ok: bool)

  /** A position with every exit order it placed and how often on_closed was called. */
  datatype Life = Life(pos: Pos, orders: seq<ExitOrder>, closes: nat)

  function Live(rules: Rules, plan: RiskPlan, fill: int, quotes: seq<Quote>): Life {
    if quotes == [] then Life(Opened(plan, fill), [], 0)
    else
      var l := Live(rules, plan, fill, Front(quotes));
      var u := PriceStep(rules, plan, l.pos, Last(quotes).price, Last(quotes).ok);
      Life(u.pos, l.orders + u.orders, l.closes + if u.closed then 1 else 0)
  }

  function Sold(orders: seq<ExitOrder>): int {
    if orders == [] then 0
    else Sold(Front(orders)) + if Last(orders).accepted then Last(orders).qty else 0
  }

  function Realized(orders: seq<ExitOrder>, entry: real): real {
    if orders == [] then 0.0
    else
      var o := Last(orders);
      Realized(Front(orders), entry) + if o.accepted then Gain(o.qty, o.price, entry) else 0.0
  }

  function AcceptedT1(orders: seq<ExitOrder>): nat {
    if orders == [] then 0
    else AcceptedT1(Front(orders)) + if Last(orders).accepted && Last(orders).tag == T1Exit then 1 else 0
  }

  /** The ledger of a position under any pattern of accepted and rejected orders. */
  predicate Conserved(plan: RiskPlan, fill: int, l: Life) {
    var p := l.pos;
    && p.filled == fill && p.filled == p.remaining + Sold(l.orders)
    && p.pnl == Realized(l.orders, plan.entryPrice)
    && AcceptedT1(l.orders) <= 1
    && (p.status == Open ==> AcceptedT1(l.orders) == 0 && p.remaining == fill && p.currentSl == plan.slPrice)
    && (p.status == Target1Booked ==> p.remaining >= 1)
    && l.closes == (if p.status == Closed then 1 else 0)
    && (p.status == Closed <==> p.reason.Some?)
  }

  lemma OneMore(orders: seq<ExitOrder>, o: ExitOrder, entry: real)
    ensures Sold(orders + [o]) == Sold(orders) + if o.accepted then o.qty else 0
    ensures Realized(orders + [o], entry) == Realized(orders, entry) + if o.accepted then Gain(o.qty, o.price, entry) else 0.0
    ensures AcceptedT1(orders + [o]) == AcceptedT1(orders) + if o.accepted && o.tag == T1Exit then 1 else 0
  {
    assert Front(orders + [o]) == orders;
  }

  lemma BookQtyBounds(rules: Rules, remaining: int)
    ensures BookQty(rules, remaining) >= 1
    ensures remaining >= 1 ==> BookQty(rules, remaining) <= remaining
  {
  }

  lemma RoundedWithin(share: real, remaining: int)
    requires remaining >= 1
    ensures var b := Clamp(RoundHalfEven(share), remaining);
      && 1 <= b <= remaining
      && (b as real - 0.5 <= share || b == 1) && (share <= b as real + 0.5 || b == remaining)
  {
    RoundNear(share);
  }

  /** The booked share is the configured percentage to the nearest unit, at least one unit and
      never more than what is left. */
  lemma BookedShare(rules: Rules, remaining: int)
    requires remaining >= 1
    ensures var share, b := Share(rules, remaining), BookQty(rules, remaining);
      && 1 <= b <= remaining
      && (b as real - 0.5 <= share || b == 1)
      && (share <= b as real + 0.5 || b == remaining)
  {
    RoundedWithin(Share(rules, remaining), remaining);
  }

  /** The shape of an update: at most one order, and none once closed. */
  predicate StepShape(rules: Rules, plan: RiskPlan, p: Pos, u: Update) {
    && |u.orders| <= 1
    && (p.status == Closed ==> u == Update(p, [], false))
    && (u.closed <==> p.status != Closed && u.pos.status == Closed)
    && u.pos.filled == p.filled
    && (u.orders == [] ==> u.pos.remaining == p.remaining && u.pos.pnl == p.pnl)
    && (u.orders != [] ==>
          var o := u.orders[0];
          && u.pos.remaining == p.remaining - (if o.accepted then o.qty else 0)
          && u.pos.pnl == p.pnl + (if o.accepted then Gain(o.qty, o.price, plan.entryPrice) else 0.0)
          && (o.tag == T1Exit ==>
                && p.status == Open && o.qty == BookQty(rules, p.remaining)
                && (u.pos.status == Open <==> !o.accepted))
          && (o.tag == FinalExit ==> o.qty == p.remaining > 0 && u.pos.status == Closed))
    && (u.pos.status == Open ==> p.status == Open && u.pos.currentSl == p.currentSl)
    && (u.pos.status == Target1Booked && p.status == Open ==> u.pos.remaining >= 1)
    && (u.pos.status == Closed && u.orders == [] && p.status != Closed ==> p.remaining <= 0)
    && ((u.pos.status == Closed <==> u.pos.reason.Some?) <== (p.status == Closed <==> p.reason.Some?))
  }

  lemma StepHasShape(rules: Rules, plan: RiskPlan, p: Pos, price: real, ok: bool)
    ensures StepShape(rules, plan, p, PriceStep(rules, plan, p, price, ok))
  {
  }

  /** Whatever the broker answers: shares and money are conserved, the first target is booked
      at most once, and on_closed is called exactly when the position closes. */
  lemma {:induction false} PositionConserved(rules: Rules, plan: RiskPlan, fill: int, quotes: seq<Quote>)
    ensures Conserved(plan, fill, Live(rules, plan, fill, quotes))
  {
    if quotes != [] {
      PositionConserved(rules, plan, fill, Front(quotes));
      var l, q := Live(rules, plan, fill, Front(quotes)), Last(quotes);
      var u := PriceStep(rules, plan, l.pos, q.price, q.ok);
      StepHasShape(rules, plan, l.pos, q.price, q.ok);
      if u.orders == [] {
        assert l.orders + u.orders == l.orders;
      } else {
        assert u.orders == [u.orders[0]];
        OneMore(l.orders, u.orders[0], plan.entryPrice);
      }
    }
  }

  /** CLOSED does not mean flat: shares are left exactly when the last order was the final
      exit and the broker rejected it. */
  lemma {:induction false} ClosedNotFlatIff(rules: Rules, plan: RiskPlan, fill: int, quotes: seq<Quote>)
    requires fill >= 1
    ensures var l := Live(rules, plan, fill, quotes);
      && l.pos.remaining >= 0
      && (l.pos.status != Closed ==> l.pos.remaining >= 1)
      && (l.pos.status == Closed ==>
            && l.orders != []
            && (l.pos.remaining > 0 <==> Last(l.orders).tag == FinalExit && !Last(l.orders).accepted))
  {
    if quotes != [] {
      ClosedNotFlatIff(rules, plan, fill, Front(quotes));
      PositionConserved(rules, plan, fill, Front(quotes));
      var l, q := Live(rules, plan, fill, Front(quotes)), Last(quotes);
      StepHasShape(rules, plan, l.pos, q.price, q.ok);
      BookQtyBounds(rules, l.pos.remaining);
      var u := PriceStep(rules, plan, l.pos, q.price, q.ok);
      if u.orders == [] { assert l.orders + u.orders == l.orders; }
    }
  }

  /** The remaining quantity can go negative exactly when the reported fill is below one: a
      zero fill, as one paper broker reports, books one share it does not have. */
  lemma NeverShortIff(rules: Rules, plan: RiskPlan, fill: int)
    ensures (forall quotes :: Live(rules, plan, fill, quotes).pos.remaining >= 0) <==> fill >= 1
  {
    if fill >= 1 {
      forall quotes ensures Live(rules, plan, fill, quotes).pos.remaining >= 0 {
        ClosedNotFlatIff(rules, plan, fill, quotes);
      }
    } else {
      var quotes := [Quote(plan.target1Price, true)];
      assert Front(quotes) == [];
      BookQtyBounds(rules, fill);
      assert Live(rules, plan, fill, quotes).pos.remaining < 0;
    }
  }

  // ---------------------------------------------------------------- the stop

  function StopAfter(rules: Rules, plan: RiskPlan, fill: int, quotes: seq<Quote>): real {
    Live(rules, plan, fill, quotes).pos.currentSl
  }

  lemma StepRaisesStop(rules: Rules, plan: RiskPlan, p: Pos, price: real, ok: bool)
    requires p.status == Open ==> p.currentSl <= plan.entryPrice
    ensures PriceStep(rules, plan, p, price, ok).pos.currentSl >= p.currentSl
  {
  }

  lemma {:induction false} StopNeverFalls(rules: Rules, plan: RiskPlan, fill: int, quotes: seq<Quote>, k: nat)
    requires plan.slPrice <= plan.entryPrice && k <= |quotes|
    ensures StopAfter(rules, plan, fill, quotes[..k]) <= StopAfter(rules, plan, fill, quotes)
  {
    if k == |quotes| {
      assert quotes[..k] == quotes;
    } else {
      assert Front(quotes)[..k] == quotes[..k];
      StopNeverFalls(rules, plan, fill, Front(quotes), k);
      PositionConserved(rules, plan, fill, Front(quotes));
      StepRaisesStop(rules, plan, Live(rules, plan, fill, Front(quotes)).pos, Last(quotes).price, Last(quotes).ok);
    }
  }

  /** The stop never moves down on any path exactly when it starts at or below the entry. */
  lemma StopRatchetsIff(rules: Rules, plan: RiskPlan, fill: int)
    ensures (forall quotes, k: nat :: k <= |quotes| ==>
               StopAfter(rules, plan, fill, quotes[..k]) <= StopAfter(rules, plan, fill, quotes))
       <==> plan.slPrice <= plan.entryPrice
  {
    if plan.slPrice <= plan.entryPrice {
      forall quotes, k: nat | k <= |quotes|
        ensures StopAfter(rules, plan, fill, quotes[..k]) <= StopAfter(rules, plan, fill, quotes)
      {
        StopNeverFalls(rules, plan, fill, quotes, k);
      }
    } else {
      var quotes := [Quote(plan.target1Price, true)];
      assert Front(quotes) == [] && quotes[..0] == [];
      assert Live(rules, plan, fill, quotes).pos
          == PriceStep(rules, plan, Opened(plan, fill), plan.target1Price, true).pos;
      assert StopAfter(rules, plan, fill, quotes) == plan.entryPrice;
      assert StopAfter(rules, plan, fill, quotes[..0]) > StopAfter(rules, plan, fill, quotes);
    }
  }

  // ---------------------------------------------------------------- first passage

  /** The highest of `start` and the first `n` prices. */
  function RunMax(start: real, quotes: seq<Quote>, n: nat): real
    requires n <= |quotes|
  {
    if n == 0 then start else Max(RunMax(start, quotes, n - 1), quotes[n - 1].price)
  }

  /** A price at the first target leaves the open state when its order is accepted, a lower one when
      it is at or below the stop, whatever becomes of its order. */
  predicate LeavesOpen(plan: RiskPlan, q: Quote) {
    if q.price >= plan.target1Price then q.ok else q.price <= plan.slPrice
  }

  /** The first of the first `n` quotes to leave the open state, or `n`. */
  function FirstHit(plan: RiskPlan, quotes: seq<Quote>, n: nat): (i: nat)
    requires n <= |quotes|
    ensures i <= n && (i < n ==> LeavesOpen(plan, quotes[i]))
    ensures forall j :: 0 <= j < i ==> !LeavesOpen(plan, quotes[j])
  {
    if n == 0 then 0
    else
      var i := FirstHit(plan, quotes, n - 1);
      if i < n - 1 || LeavesOpen(plan, quotes[n - 1]) then i else n
  }

  /** The runner's stop after price `k`: breakeven, or the trail below the best price so far. */
  function RunnerStop(rules: Rules, plan: RiskPlan, quotes: seq<Quote>, k: nat): real
    requires k < |quotes|
  {
    Max(plan.entryPrice, RunMax(plan.entryPrice, quotes, k + 1) - rules.trail)
  }

  /** The first price from `from` on, among the first `n`, at or below the runner's stop, or `n`. */
  function FirstStop(rules: Rules, plan: RiskPlan, quotes: seq<Quote>, from: nat, n: nat): (j: nat)
    requires from <= n <= |quotes|
    ensures from <= j <= n && (j < n ==> quotes[j].price <= RunnerStop(rules, plan, quotes, j))
    ensures forall k :: from <= k < j ==> quotes[k].price > RunnerStop(rules, plan, quotes, k)
  {
    if n == from then from
    else
      var j := FirstStop(rules, plan, quotes, from, n - 1);
      if j < n - 1 || quotes[n - 1].price <= RunnerStop(rules, plan, quotes, n - 1) then j else n
  }

  /** A position that had sold `sold` of `fill` for a profit of `booked`, closed by a quote: flat if
      the broker accepts the order, still holding the rest if not. */
  function ClosedBy(plan: RiskPlan, fill: int, sold: int, booked: real, stop: real, best: real, q: Quote, reason: Reason): Pos {
    if q.ok then Pos(Closed, fill, 0, stop, best, booked + Gain(fill - sold, q.price, plan.entryPrice), Some(reason))
    else Pos(Closed, fill, fill - sold, stop, best, booked, Some(reason))
  }

  /** The runner left after `b` shares were booked at quote `i`. */
  function RunnerOutcome(rules: Rules, plan: RiskPlan, fill: int, b: int, quotes: seq<Quote>, i: nat, n: nat): Pos
    requires i < n <= |quotes|
  {
    var entry, j := plan.entryPrice, FirstStop(rules, plan, quotes, i + 1, n);
    var booked := Gain(b, quotes[i].price, entry);
    if j == n then
      var stop := if n == i + 1 then entry else RunnerStop(rules, plan, quotes, n - 1);
      Pos(Target1Booked, fill, fill - b, stop, RunMax(entry, quotes, n), booked, None)
    else
      ClosedBy(plan, fill, b, booked, RunnerStop(rules, plan, quotes, j), RunMax(entry, quotes, j + 1), quotes[j], TslHit)
  }

  /** What the first `n` quotes do to a position, read off the path without following it. */
  function PathOutcome(rules: Rules, plan: RiskPlan, fill: int, quotes: seq<Quote>, n: nat): Pos
    requires n <= |quotes|
  {
    var entry, i := plan.entryPrice, FirstHit(plan, quotes, n);
    if i == n then Pos(Open, fill, fill, plan.slPrice, RunMax(entry, quotes, n), 0.0, None)
    else
      var best, b := RunMax(entry, quotes, i + 1), BookQty(rules, fill);
      if quotes[i].price < plan.target1Price then
        ClosedBy(plan, fill, 0, 0.0, plan.slPrice, best, quotes[i], SlHit)
      else if b == fill then
        Pos(Closed, fill, 0, entry, best, Gain(b, quotes[i].price, entry), Some(Target1FullExit))
      else RunnerOutcome(rules, plan, fill, b, quotes, i, n)
  }

  lemma ClosedStays(rules: Rules, plan: RiskPlan, p: Pos, price: real, ok: bool)
    requires p.status == Closed
    ensures PriceStep(rules, plan, p, price, ok) == Update(p, [], false)
  {
  }

  /** One quote on a booked position: the stop trails the best price, then is tested. */
  lemma RunnerStep(rules: Rules, plan: RiskPlan, p: Pos, q: Quote)
    requires p.status == Target1Booked && p.remaining >= 1
    ensures var best := Max(p.best, q.price);
      var stop := Max(p.currentSl, best - rules.trail);
      PriceStep(rules, plan, p, q.price, q.ok).pos ==
        if q.price > stop then p.(best := best, currentSl := stop)
        else if q.ok then
          Pos(Closed, p.filled, 0, stop, best, p.pnl + Gain(p.remaining, q.price, plan.entryPrice), Some(TslHit))
        else Pos(Closed, p.filled, p.remaining, stop, best, p.pnl, Some(TslHit))
  {
  }

  lemma RunnerContinues(rules: Rules, plan: RiskPlan, fill: int, b: int, quotes: seq<Quote>, i: nat, n: nat)
    requires i + 1 < n <= |quotes| && b < fill
    ensures PriceStep(rules, plan, RunnerOutcome(rules, plan, fill, b, quotes, i, n - 1), quotes[n - 1].price, quotes[n - 1].ok).pos
         == RunnerOutcome(rules, plan, fill, b, quotes, i, n)
  {
    var p := RunnerOutcome(rules, plan, fill, b, quotes, i, n - 1);
    if p.status == Target1Booked {
      RunnerStep(rules, plan, p, quotes[n - 1]);
    } else {
      ClosedStays(rules, plan, p, quotes[n - 1].price, quotes[n - 1].ok);
    }
  }

  /** A quote while the position is open: left open, stopped out, fully booked, or now a runner. */
  lemma WhileOpen(rules: Rules, plan: RiskPlan, fill: int, quotes: seq<Quote>, n: nat)
    requires fill >= 1 && 0 < n <= |quotes| && FirstHit(plan, quotes, n - 1) == n - 1
    ensures PriceStep(rules, plan, PathOutcome(rules, plan, fill, quotes, n - 1), quotes[n - 1].price, quotes[n - 1].ok).pos
         == PathOutcome(rules, plan, fill, quotes, n)
  {
    BookQtyBounds(rules, fill);
  }

  /** Any quote after that. */
  lemma AfterOpen(rules: Rules, plan: RiskPlan, fill: int, quotes: seq<Quote>, n: nat)
    requires fill >= 1 && 0 < n <= |quotes| && FirstHit(plan, quotes, n - 1) < n - 1
    ensures PriceStep(rules, plan, PathOutcome(rules, plan, fill, quotes, n - 1), quotes[n - 1].price, quotes[n - 1].ok).pos
         == PathOutcome(rules, plan, fill, quotes, n)
  {
    var i := FirstHit(plan, quotes, n - 1);
    BookQtyBounds(rules, fill);
    if quotes[i].price >= plan.target1Price && BookQty(rules, fill) != fill {
      RunnerContinues(rules, plan, fill, BookQty(rules, fill), quotes, i, n);
    } else {
      ClosedStays(rules, plan, PathOutcome(rules, plan, fill, quotes, n - 1), quotes[n - 1].price, quotes[n - 1].ok);
    }
  }

  /** Price-path refinement, with any orders accepted and any rejected: following the quotes update
      by update ends where the first-passage reading of the path says, after every prefix of it. */
  lemma {:induction false} FollowsFirstPassage(rules: Rules, plan: RiskPlan, fill: int, quotes: seq<Quote>, n: nat)
    requires fill >= 1 && n <= |quotes|
    ensures Live(rules, plan, fill, quotes[..n]).pos == PathOutcome(rules, plan, fill, quotes, n)
  {
    if n > 0 {
      assert Front(quotes[..n]) == quotes[..n - 1] && Last(quotes[..n]) == quotes[n - 1];
      FollowsFirstPassage(rules, plan, fill, quotes, n - 1);
      if FirstHit(plan, quotes, n - 1) == n - 1 {
        WhileOpen(rules, plan, fill, quotes, n);
      } else {
        AfterOpen(rules, plan, fill, quotes, n);
      }
    }
  }

  /** The orders of the path: each rejected try at the first target, then the one that left the open
      state, then the runner's exit. */
  function PathOrders(rules: Rules, plan: RiskPlan, fill: int, quotes: seq<Quote>, n: nat): seq<ExitOrder>
    requires n <= |quotes|
  {
    if n == 0 then []
    else
      var q, i, b := quotes[n - 1], FirstHit(plan, quotes, n), BookQty(rules, fill);
      PathOrders(rules, plan, fill, quotes, n - 1) +
        if i >= n - 1 then
          if q.price >= plan.target1Price then [ExitOrder(T1Exit, b, q.price, q.ok)]
          else if i == n - 1 then [ExitOrder(FinalExit, fill, q.price, q.ok)]
          else []
        else if quotes[i].price >= plan.target1Price && b != fill && FirstStop(rules, plan, quotes, i + 1, n) == n - 1
        then [ExitOrder(FinalExit, fill - b, q.price, q.ok)]
        else []
  }

  /** The order a quote places on a position that is still open. */
  lemma OpenOrder(rules: Rules, plan: RiskPlan, p: Pos, q: Quote)
    requires p.status == Open && p.remaining >= 1 && p.currentSl == plan.slPrice
    ensures PriceStep(rules, plan, p, q.price, q.ok).orders ==
      if q.price >= plan.target1Price then [ExitOrder(T1Exit, BookQty(rules, p.remaining), q.price, q.ok)]
      else if q.price <= plan.slPrice then [ExitOrder(FinalExit, p.remaining, q.price, q.ok)]
      else []
  {
    BookQtyBounds(rules, p.remaining);
  }

  lemma OrderNow(rules: Rules, plan: RiskPlan, fill: int, quotes: seq<Quote>, n: nat)
    requires fill >= 1 && 0 < n <= |quotes|
    ensures PathOrders(rules, plan, fill, quotes, n) == PathOrders(rules, plan, fill, quotes, n - 1)
      + PriceStep(rules, plan, PathOutcome(rules, plan, fill, quotes, n - 1), quotes[n - 1].price, quotes[n - 1].ok).orders
  {
    if FirstHit(plan, quotes, n - 1) == n - 1 {
      OpenOrder(rules, plan, PathOutcome(rules, plan, fill, quotes, n - 1), quotes[n - 1]);
    } else {
      LaterOrder(rules, plan, fill, quotes, n);
    }
  }

  lemma LaterOrder(rules: Rules, plan: RiskPlan, fill: int, quotes: seq<Quote>, n: nat)
    requires fill >= 1 && 0 < n <= |quotes| && FirstHit(plan, quotes, n - 1) < n - 1
    ensures PathOrders(rules, plan, fill, quotes, n) == PathOrders(rules, plan, fill, quotes, n - 1)
      + PriceStep(rules, plan, PathOutcome(rules, plan, fill, quotes, n - 1), quotes[n - 1].price, quotes[n - 1].ok).orders
  {
    var i, p, q := FirstHit(plan, quotes, n - 1), PathOutcome(rules, plan, fill, quotes, n - 1), quotes[n - 1];
    BookQtyBounds(rules, fill);
    if p.status == Target1Booked {
      RunnerStops(rules, plan, fill, BookQty(rules, fill), quotes, i, n);
    } else {
      ClosedStays(rules, plan, p, q.price, q.ok);
    }
  }

  /** A runner places its exit order exactly on the price that reaches its stop. */
  lemma RunnerStops(rules: Rules, plan: RiskPlan, fill: int, b: int, quotes: seq<Quote>, i: nat, n: nat)
    requires i + 1 < n <= |quotes| && b < fill && FirstStop(rules, plan, quotes, i + 1, n - 1) == n - 1
    ensures var p, q := RunnerOutcome(rules, plan, fill, b, quotes, i, n - 1), quotes[n - 1];
      PriceStep(rules, plan, p, q.price, q.ok).orders ==
        if FirstStop(rules, plan, quotes, i + 1, n) == n - 1 then [ExitOrder(FinalExit, fill - b, q.price, q.ok)] else []
  {
  }

  /** So do its orders: exactly those of the path are placed. */
  lemma {:induction false} PlacesPathOrders(rules: Rules, plan: RiskPlan, fill: int, quotes: seq<Quote>, n: nat)
    requires fill >= 1 && n <= |quotes|
    ensures Live(rules, plan, fill, quotes[..n]).orders == PathOrders(rules, plan, fill, quotes, n)
  {
    if n > 0 {
      assert Front(quotes[..n]) == quotes[..n - 1] && Last(quotes[..n]) == quotes[n - 1];
      PlacesPathOrders(rules, plan, fill, quotes, n - 1);
      FollowsFirstPassage(rules, plan, fill, quotes, n - 1);
      OrderNow(rules, plan, fill, quotes, n);
    }
  }

  // ---------------------------------------------------------------- money

  /** What the accepted orders brought in. */
  function Proceeds(orders: seq<ExitOrder>): real {
    if orders == [] then 0.0
    else Proceeds(Front(orders)) + if Last(orders).accepted then Last(orders).qty as real * Last(orders).price else 0.0
  }

  lemma SpreadGain(qty: int, price: real, entry: real)
    ensures Gain(qty, price, entry) == qty as real * price - qty as real * entry
  {
  }

  lemma AddQty(a: int, b: int, entry: real)
    ensures (a + b) as real * entry == a as real * entry + b as real * entry
  {
  }

  lemma {:induction false} RealizedIsCash(orders: seq<ExitOrder>, entry: real)
    ensures Realized(orders, entry) == Proceeds(orders) - Sold(orders) as real * entry
  {
    if orders != [] {
      RealizedIsCash(Front(orders), entry);
      var o := Last(orders);
      if o.accepted {
        SpreadGain(o.qty, o.price, entry);
        AddQty(Sold(Front(orders)), o.qty, entry);
      }
    }
  }

  lemma PnlIsRealized(rules: Rules, plan: RiskPlan, fill: int, quotes: seq<Quote>)
    ensures var l := Live(rules, plan, fill, quotes); l.pos.pnl == Realized(l.orders, plan.entryPrice)
  {
    PositionConserved(rules, plan, fill, quotes);
  }

  /** The result is what the accepted orders brought in less the entry price of what they sold. */
  predicate IsCash(l: Life, entry: real) {
    l.pos.pnl == Proceeds(l.orders) - Sold(l.orders) as real * entry
  }

  lemma RealizedLifeIsCash(l: Life, entry: real)
    requires l.pos.pnl == Realized(l.orders, entry)
    ensures IsCash(l, entry)
  {
    RealizedIsCash(l.orders, entry);
  }

  /** However the broker answers, the realized result is the cash of the accepted orders. */
  lemma ResultIsCash(rules: Rules, plan: RiskPlan, fill: int, quotes: seq<Quote>)
    ensures IsCash(Live(rules, plan, fill, quotes), plan.entryPrice)
  {
    PnlIsRealized(rules, plan, fill, quotes);
    RealizedLifeIsCash(Live(rules, plan, fill, quotes), plan.entryPrice);
  }

  /** A loss of no more than the capital at risk, or one lot's risk, and half a paisa a unit. */
  predicate LossWithin(pnl: real, quantity: int, capital: real, riskPerLot: real) {
    pnl >= -(Max(capital, riskPerLot) + 0.005 * quantity as real)
  }

  lemma LossFromSizing(p: RiskPlan, capital: real, riskPerLot: real)
    requires SizedFor(p, capital, riskPerLot)
    ensures LossWithin(Gain(p.quantity, p.slPrice, p.entryPrice), p.quantity, capital, riskPerLot)
  {
    assert p.quantity as real * (p.slPrice - p.entryPrice) == -(p.quantity as real * (p.entryPrice - p.slPrice));
  }

  /** Stopped out at the stop by an accepted order, before the first target. */
  predicate StoppedOut(p: RiskPlan, quotes: seq<Quote>) {
    var i := FirstHit(p, quotes, |quotes|);
    i < |quotes| && quotes[i].price == p.slPrice < p.target1Price && quotes[i].ok
  }

  lemma StoppedOutCloses(rules: Rules, p: RiskPlan, fill: int, quotes: seq<Quote>)
    requires fill >= 1 && StoppedOut(p, quotes)
    ensures var pos := Live(rules, p, fill, quotes).pos;
      && pos.status == Closed && pos.reason == Some(SlHit) && pos.remaining == 0
      && pos.pnl == 0.0 + Gain(fill, p.slPrice, p.entryPrice)
  {
    FollowsFirstPassage(rules, p, fill, quotes, |quotes|);
    assert quotes[..|quotes|] == quotes;
  }

  lemma StopOutOfPlan(rules: Rules, p: RiskPlan, quotes: seq<Quote>, capital: real, riskPerLot: real)
    requires p.quantity >= 1 && SizedFor(p, capital, riskPerLot) && StoppedOut(p, quotes)
    ensures var pos := Live(rules, p, p.quantity, quotes).pos;
      && pos.status == Closed && pos.reason == Some(SlHit) && pos.remaining == 0
      && LossWithin(pos.pnl, p.quantity, capital, riskPerLot)
  {
    StoppedOutCloses(rules, p, p.quantity, quotes);
    LossFromSizing(p, capital, riskPerLot);
  }

  /** A position sized by the risk engine, wholly filled and stopped out exactly at its stop before
      the first target, loses no more than the capital at risk, or one lot's risk, and half a paisa
      a unit. */
  lemma StopOutIsBounded(rules: Rules, entry: real, spotEntry: real, spotSl: real, delta: real, lotSize: int,
                         totalCapital: real, riskPct: real, rr: real, quotes: seq<Quote>)
    requires lotSize >= 1
    requires StoppedOut(ComputeRiskPlan(entry, spotEntry, spotSl, delta, lotSize, totalCapital, riskPct, rr), quotes)
    ensures var p := ComputeRiskPlan(entry, spotEntry, spotSl, delta, lotSize, totalCapital, riskPct, rr);
      var pos := Live(rules, p, p.quantity, quotes).pos;
      && pos.status == Closed && pos.reason == Some(SlHit) && pos.remaining == 0
      && LossWithin(pos.pnl, p.quantity, CapitalAtRisk(totalCapital, riskPct), SlPoints(spotEntry, spotSl, delta) * lotSize as real)
  {
    var p := ComputeRiskPlan(entry, spotEntry, spotSl, delta, lotSize, totalCapital, riskPct, rr);
    PlanIsSized(entry, spotEntry, spotSl, delta, lotSize, totalCapital, riskPct, rr);
    assert p.quantity >= 1 by { MulAtLeastOne(p.lots, lotSize); }
    StopOutOfPlan(rules, p, quotes, CapitalAtRisk(totalCapital, riskPct), SlPoints(spotEntry, spotSl, delta) * lotSize as real);
  }

  lemma MulAtLeastOne(a: int, b: int)
    requires a >= 1 && b >= 1
    ensures a * b >= 1
  {
  }

  // ---------------------------------------------------------------- objects

  class Position {
    const instrumentKey: string
    const plan: RiskPlan
    var status: Status
    var filledQuantity: int
    var remainingQuantity: int
    var currentSl: real
    var bestPriceSeen: real
    var realizedPnl: real
    var exitReason: Option<Reason>

    constructor (instrumentKey: string, plan: RiskPlan)
      ensures this.instrumentKey == instrumentKey && this.plan == plan
      ensures View() == Pos(PendingEntry, 0, 0, plan.slPrice, plan.entryPrice, 0.0, None)
    {
      this.instrumentKey, this.plan := instrumentKey, plan;
      status, filledQuantity, remainingQuantity := PendingEntry, 0, 0;
      currentSl, bestPriceSeen, realizedPnl, exitReason := plan.slPrice, plan.entryPrice, 0.0, None;
    }

    ghost function View(): Pos
      reads this
    {
      Pos(status, filledQuantity, remainingQuantity, currentSl, bestPriceSeen, realizedPnl, exitReason)
    }
  }

  /** One answer of get_order_status while waiting for the entry to fill. */
  datatype Poll = NotYet | Filled(quantity: Option<int>)

  /** The fill reported by the first completed poll before the deadline. */
  function FirstFill(polls: seq<Poll>, ordered: int): Option<int> {
    if polls == [] then None
    else if polls[0].Filled? then Some(if polls[0].quantity.Some? then polls[0].quantity.value else ordered)
    else FirstFill(polls[1..], ordered)
  }

  /** Poll `k` is the first to report the entry as complete. */
  predicate CompletesAt(polls: seq<Poll>, k: nat) {
    k < |polls| && polls[k].Filled? && forall j :: 0 <= j < k ==> polls[j] == NotYet
  }

  lemma CompletesLater(polls: seq<Poll>, k: nat)
    requires polls != [] && polls[0] == NotYet
    ensures CompletesAt(polls, k + 1) <==> CompletesAt(polls[1..], k)
    ensures !CompletesAt(polls, 0)
  {
    if CompletesAt(polls, k + 1) {
      assert forall j :: 0 <= j < k ==> polls[1..][j] == polls[j + 1];
    }
    if CompletesAt(polls[1..], k) {
      assert forall j :: 0 < j < k + 1 ==> polls[j] == polls[1..][j - 1];
    }
  }

  /** It is the quantity of the first completed poll, the ordered one when none is reported. */
  lemma {:induction false} FirstFillIff(polls: seq<Poll>, ordered: int, k: nat)
    ensures CompletesAt(polls, k) ==>
      FirstFill(polls, ordered) == Some(if polls[k].quantity.Some? then polls[k].quantity.value else ordered)
    ensures (forall j :: 0 <= j < |polls| ==> polls[j] == NotYet) ==> FirstFill(polls, ordered).None?
  {
    if polls != [] && polls[0] == NotYet {
      if k > 0 {
        FirstFillIff(polls[1..], ordered, k - 1);
        CompletesLater(polls, k - 1);
      } else {
        FirstFillIff(polls[1..], ordered, 0);
      }
    }
  }

  class PositionManager {
    const rules: Rules
    var orders: seq<ExitOrder>  // every exit order sent to the broker
    var closed: seq<Position>   // every on_closed call

    constructor (rules: Rules)
      ensures this.rules == rules && orders == [] && closed == []
    {
      this.rules, orders, closed := rules, [], [];
    }

    /** The position and the logs after one update. */
    twostate predicate Did(position: Position, u: Update)
      reads this, position
    {
      && position.View() == u.pos && orders == old(orders) + u.orders
      && closed == old(closed) + if u.closed then [position] else []
    }

    method OpenPosition(instrumentKey: string, plan: RiskPlan, entryOk: bool, polls: seq<Poll>)
      returns (position: Position?)
      ensures position != null <==> entryOk && FirstFill(polls, plan.quantity).Some?
      ensures position != null ==>
        && fresh(position) && position.instrumentKey == instrumentKey && position.plan == plan
        && position.View() == Opened(plan, FirstFill(polls, plan.quantity).value)
    {
      if !entryOk { return null; }
      var p := new Position(instrumentKey, plan);
      var filled := WaitForFill(p, polls);
      if !filled { return null; }
      return p;
    }

    method WaitForFill(position: Position, polls: seq<Poll>) returns (filled: bool)
      modifies position
      ensures filled <==> FirstFill(polls, position.plan.quantity).Some?
      ensures position.View() == if !filled then old(position.View())
        else old(position.View()).(status := Open,
               filled := FirstFill(polls, position.plan.quantity).value,
               remaining := FirstFill(polls, position.plan.quantity).value)
    {
      var k := 0;
      while k < |polls|
        invariant k <= |polls|
        invariant FirstFill(polls, position.plan.quantity) == FirstFill(polls[k..], position.plan.quantity)
        invariant position.View() == old(position.View())
      {
        if polls[k].Filled? {
          position.filledQuantity :=
            if polls[k].quantity.Some? then polls[k].quantity.value else position.plan.quantity;
          position.remainingQuantity := position.filledQuantity;
          position.status := Open;
          return true;
        }
        k := k + 1;
      }
      return false;
    }

    method CloseOut(position: Position, price: real, reason: Reason, ok: bool)
      modifies this, position
      ensures Did(position, ClosePosition(position.plan, old(position.View()), price, reason, ok))
    {
      if position.remainingQuantity > 0 {
        orders := orders + [ExitOrder(FinalExit, position.remainingQuantity, price, ok)];
        if ok {
          position.realizedPnl :=
            position.realizedPnl + Gain(position.remainingQuantity, price, position.plan.entryPrice);
          position.remainingQuantity := 0;
        }
      }
      position.status := Closed;
      position.exitReason := Some(reason);
      closed := closed + [position];
    }

    method TakeTarget1(position: Position, price: real, ok: bool)
      modifies this, position
      ensures Did(position, BookTarget1(rules, position.plan, old(position.View()), price, ok))
    {
      var qty := BookQty(rules, position.remainingQuantity);
      orders := orders + [ExitOrder(T1Exit, qty, price, ok)];
      if ok {
        position.remainingQuantity := position.remainingQuantity - qty;
        position.realizedPnl := position.realizedPnl + Gain(qty, price, position.plan.entryPrice);
        position.status := Target1Booked;
        position.currentSl := position.plan.entryPrice;
        if position.remainingQuantity <= 0 {
          CloseOut(position, price, Target1FullExit, ok);
        }
      }
    }

    method OnPriceUpdate(position: Position, price: real, ok: bool)
      modifies this, position
      ensures Did(position, PriceStep(rules, position.plan, old(position.View()), price, ok))
    {
      if position.status == Closed { return; }
      position.bestPriceSeen := Max(position.bestPriceSeen, price);
      if position.status == Open && price >= position.plan.target1Price {
        TakeTarget1(position, price, ok);
        return;
      }
      if position.status == Target1Booked {
        var newTrailSl := position.bestPriceSeen - rules.trail;
        if newTrailSl > position.currentSl {
          position.currentSl := newTrailSl;
        }
      }
      if price <= position.currentSl {
        CloseOut(position, price, if position.status == Target1Booked then TslHit else SlHit, ok);
      }
    }
  }
}
