/** execution/risk_engine.py: the option stop, the lots and the first target of a trade. */
module RiskPlans {
  import opened Basics

  /** Python's round() to an integer: to nearest, ties to even. */
  function RoundHalfEven(x: real): int {
    var f := x.Floor;
    var frac := x - f as real;
    if frac < 0.5 then f
    else if frac > 0.5 then f + 1
    else if f % 2 == 0 then f else f + 1
  }

  /** round(x, 2). */
  function Round2(x: real): real { RoundHalfEven(x * 100.0) as real / 100.0 }

  datatype RiskPlan = RiskPlan(
    spotRiskPoints: real, slPoints: real, slPrice: real, entryPrice: real,
    lots: int, quantity: int, capitalAtRisk: real, target1Price: real, target1Rr: real)

  function CapitalAtRisk(totalCapital: real, riskPct: real): real { totalCapital * (riskPct / 100.0) }

  function SlPoints(spotEntry: real, spotSl: real, delta: real): real { Abs(spotEntry - spotSl) * Abs(delta) }

  function StopPrice(entry: real, points: real): real { Round2(Max(0.05, entry - points)) }

  function TargetPrice(entry: real, points: real, rr: real): real { Round2(entry + points * rr) }

  function LotsFor(capital: real, riskPerLot: real): int {
    if riskPerLot > 0.0 then
      var n := (capital / riskPerLot).Floor;
      if n > 1 then n else 1
    else 1
  }

  /** The plan from the option's stop distance and the rupees at risk. */
  function PlanFor(entry: real, spotRisk: real, points: real, lotSize: int, capital: real, rr: real): RiskPlan {
    var lots := LotsFor(capital, points * lotSize as real);
    RiskPlan(spotRisk, points, StopPrice(entry, points), entry, lots, lots * lotSize,
             Round2(capital), TargetPrice(entry, points, rr), rr)
  }

  function ComputeRiskPlan(entry: real, spotEntry: real, spotSl: real, delta: real, lotSize: int,
                           totalCapital: real, riskPct: real, rr: real): RiskPlan
  {
    PlanFor(entry, Abs(spotEntry - spotSl), SlPoints(spotEntry, spotSl, delta), lotSize,
            CapitalAtRisk(totalCapital, riskPct), rr)
  }

  // ---------------------------------------------------------------- rounding

  lemma RoundNear(x: real)
    ensures RoundHalfEven(x) as real - 0.5 <= x <= RoundHalfEven(x) as real + 0.5
  {
  }

  /** The nearest integer, and at a tie the even one. */
  lemma RoundHalfEvenIff(x: real, n: int)
    ensures RoundHalfEven(x) == n <==>
      n as real - 0.5 <= x <= n as real + 0.5 && (x == n as real - 0.5 || x == n as real + 0.5 ==> n % 2 == 0)
  {
    RoundNear(x);
    var f := x.Floor;
    assert f as real <= x < f as real + 1.0;
    if n as real - 0.5 <= x <= n as real + 0.5 { assert n == f || n == f + 1; }
  }

  lemma RoundMonotone(x: real, y: real)
    requires x <= y
    ensures RoundHalfEven(x) <= RoundHalfEven(y)
  {
    assert x.Floor <= y.Floor;
  }

  predicate OnPaiseGrid(x: real) { ((x * 100.0).Floor) as real == x * 100.0 }

  lemma RoundGrid(x: real)
    requires OnPaiseGrid(x)
    ensures Round2(x) == x
  {
    var k := (x * 100.0).Floor;
    assert k as real / 100.0 == x;
  }

  lemma Round2Near(x: real)
    ensures x - 0.005 <= Round2(x) <= x + 0.005
  {
    RoundNear(x * 100.0);
  }

  lemma Round2Monotone(x: real, y: real)
    requires x <= y
    ensures Round2(x) <= Round2(y)
  {
    RoundMonotone(x * 100.0, y * 100.0);
    var a, b := RoundHalfEven(x * 100.0) as real, RoundHalfEven(y * 100.0) as real;
    assert a / 100.0 <= b / 100.0;
  }

  // ---------------------------------------------------------------- sizing

  lemma ScaleLe(a: real, b: real, w: real)
    requires a <= b && w >= 0.0
    ensures a * w <= b * w
  {
  }

  lemma ScaleLt(a: real, b: real, w: real)
    requires a < b && w > 0.0
    ensures a * w < b * w
  {
  }

  lemma FloorOfQuotient(x: real, w: real)
    requires w > 0.0
    ensures (x / w).Floor as real * w <= x < ((x / w).Floor + 1) as real * w
  {
    var q, f := x / w, (x / w).Floor;
    assert q * w == x;
    ScaleLe(f as real, q, w);
    ScaleLt(q, (f + 1) as real, w);
  }

  lemma LotsForFits(capital: real, riskPerLot: real)
    requires riskPerLot >= 0.0
    ensures var lots := LotsFor(capital, riskPerLot);
      && lots >= 1
      && (riskPerLot > 0.0 ==> (lots + 1) as real * riskPerLot > capital)
      && (lots > 1 ==> riskPerLot > 0.0 && lots as real * riskPerLot <= capital)
      && lots as real * riskPerLot <= Max(capital, riskPerLot)
  {
    var lots := LotsFor(capital, riskPerLot);
    if riskPerLot > 0.0 {
      var n := (capital / riskPerLot).Floor;
      FloorOfQuotient(capital, riskPerLot);
      ScaleLe((n + 1) as real, (lots + 1) as real, riskPerLot);
    }
    if lots == 1 { assert lots as real * riskPerLot == riskPerLot; }
  }

  lemma PointsNonNegative(spotEntry: real, spotSl: real, delta: real)
    ensures SlPoints(spotEntry, spotSl, delta) >= 0.0
  {
    ScaleLe(0.0, Abs(spotEntry - spotSl), Abs(delta));
  }

  lemma StopAtOrBelowEntry(entry: real, points: real)
    requires OnPaiseGrid(entry) && points >= 0.0
    ensures StopPrice(entry, points) <= entry <==> entry >= 0.05
  {
    RoundGrid(entry);
    assert OnPaiseGrid(0.05) by { assert 0.05 * 100.0 == 5.0; }
    RoundGrid(0.05);
    Round2Monotone(0.05, Max(0.05, entry - points));
    if entry >= 0.05 { Round2Monotone(Max(0.05, entry - points), entry); }
  }

  lemma TargetAtOrAboveEntry(entry: real, points: real, rr: real)
    requires OnPaiseGrid(entry) && points >= 0.0 && rr >= 0.0
    ensures entry <= TargetPrice(entry, points, rr)
  {
    ScaleLe(0.0, points, rr);
    RoundGrid(entry);
    Round2Monotone(entry, entry + points * rr);
  }

  /** On the paise grid the stop is at or below the entry exactly when the premium is at least
      the minimum price; the first target is never below the entry. */
  lemma LevelsOrdered(entry: real, spotEntry: real, spotSl: real, delta: real, lotSize: int,
                      totalCapital: real, riskPct: real, rr: real)
    requires OnPaiseGrid(entry) && rr >= 0.0
    ensures var p := ComputeRiskPlan(entry, spotEntry, spotSl, delta, lotSize, totalCapital, riskPct, rr);
      && (p.slPrice <= entry <==> entry >= 0.05)
      && entry <= p.target1Price
  {
    PointsNonNegative(spotEntry, spotSl, delta);
    StopAtOrBelowEntry(entry, SlPoints(spotEntry, spotSl, delta));
    TargetAtOrAboveEntry(entry, SlPoints(spotEntry, spotSl, delta), rr);
  }

  /** The target is the reward multiple of the stop distance, to half a paisa. */
  lemma TargetNear(entry: real, points: real, rr: real)
    ensures entry + points * rr - 0.005 <= TargetPrice(entry, points, rr) <= entry + points * rr + 0.005
  {
    Round2Near(entry + points * rr);
  }

  lemma StopLossPerUnit(entry: real, points: real)
    ensures entry - StopPrice(entry, points) <= points + 0.005
  {
    Round2Near(Max(0.05, entry - points));
  }

  lemma QuantityReal(lots: int, lotSize: int, points: real)
    requires lots >= 1 && lotSize >= 1
    ensures (lots * lotSize) as real >= 0.0
    ensures points * (lots * lotSize) as real == lots as real * (points * lotSize as real)
  {
    var a, b := lots as real, lotSize as real;
    ScaleLe(0.0, a, b);
    assert (lots * lotSize) as real == a * b;
    assert points * (a * b) == a * (points * b);
  }

  lemma LossOfQuantity(loss: real, points: real, q: real, bound: real)
    requires loss <= points + 0.005 && q >= 0.0 && points * q <= bound
    ensures q * loss <= bound + 0.005 * q
  {
    ScaleLe(loss, points + 0.005, q);
    assert (points + 0.005) * q == points * q + 0.005 * q;
  }

  lemma LossOfLots(loss: real, points: real, lotSize: int, lots: int, bound: real)
    requires lots >= 1 && lotSize >= 1 && lots as real * (points * lotSize as real) <= bound
    requires loss <= points + 0.005
    ensures var q := (lots * lotSize) as real; q * loss <= bound + 0.005 * q
  {
    QuantityReal(lots, lotSize, points);
    LossOfQuantity(loss, points, (lots * lotSize) as real, bound);
  }

  /** What the sizing promises of a plan, given what one lot risks. */
  ghost predicate SizedFor(p: RiskPlan, capital: real, riskPerLot: real) {
    && p.lots >= 1
    // the most lots that fit the capital at risk ...
    && (riskPerLot > 0.0 ==> (p.lots + 1) as real * riskPerLot > capital)
    // ... and none beyond it, except that one lot is always taken
    && (p.lots > 1 ==> p.lots as real * riskPerLot <= capital)
    // a stop-out of everything exactly at the stop
    && p.quantity as real * (p.entryPrice - p.slPrice)
         <= Max(capital, riskPerLot) + 0.005 * p.quantity as real
  }

  lemma SizingOfPoints(p: RiskPlan, points: real, lotSize: int, capital: real)
    requires points >= 0.0 && lotSize >= 1
    requires p.lots == LotsFor(capital, points * lotSize as real) && p.quantity == p.lots * lotSize
    requires p.entryPrice - p.slPrice <= points + 0.005
    ensures SizedFor(p, capital, points * lotSize as real)
  {
    var riskPerLot := points * lotSize as real;
    assert riskPerLot >= 0.0 by { ScaleLe(0.0, points, lotSize as real); }
    LotsForFits(capital, riskPerLot);
    var lots := p.lots;
    LossOfLots(p.entryPrice - p.slPrice, points, lotSize, lots, Max(capital, riskPerLot));
  }

  lemma PlanForIsSized(entry: real, spotRisk: real, points: real, lotSize: int, capital: real, rr: real)
    requires points >= 0.0 && lotSize >= 1
    ensures SizedFor(PlanFor(entry, spotRisk, points, lotSize, capital, rr), capital, points * lotSize as real)
  {
    StopLossPerUnit(entry, points);
    SizingOfPoints(PlanFor(entry, spotRisk, points, lotSize, capital, rr), points, lotSize, capital);
  }

  /** Every plan takes the most lots that fit the capital at risk and at least one; stopped out
      exactly at its stop it loses no more than that capital, or one lot's risk when even one
      lot exceeds it, plus half a paisa a unit for rounding. */
  lemma PlanIsSized(entry: real, spotEntry: real, spotSl: real, delta: real, lotSize: int,
                    totalCapital: real, riskPct: real, rr: real)
    requires lotSize >= 1
    ensures var p := ComputeRiskPlan(entry, spotEntry, spotSl, delta, lotSize, totalCapital, riskPct, rr);
      && p.quantity == p.lots * lotSize && p.entryPrice == entry
      && SizedFor(p, CapitalAtRisk(totalCapital, riskPct), SlPoints(spotEntry, spotSl, delta) * lotSize as real)
  {
    PointsNonNegative(spotEntry, spotSl, delta);
    PlanForIsSized(entry, Abs(spotEntry - spotSl), SlPoints(spotEntry, spotSl, delta), lotSize,
                   CapitalAtRisk(totalCapital, riskPct), rr);
  }

  // ---------------------------------------------------------------- the plan in figures

  lemma PaiseOnGrid(n: int, y: real)
    requires y == n as real / 100.0
    ensures OnPaiseGrid(y)
  {
    assert y * 100.0 == n as real;
  }

  lemma Round2OnGrid(x: real)
    ensures OnPaiseGrid(Round2(x))
  {
    PaiseOnGrid(RoundHalfEven(x * 100.0), Round2(x));
  }

  /** The stop is the planned distance below the entry to half a paisa, or the minimum price when
      that is too low. */
  lemma StopNear(entry: real, points: real)
    ensures entry - points >= 0.05 ==> entry - points - 0.005 <= StopPrice(entry, points) <= entry - points + 0.005
    ensures entry - points < 0.05 ==> StopPrice(entry, points) == 0.05
    ensures OnPaiseGrid(StopPrice(entry, points))
  {
    Round2Near(Max(0.05, entry - points));
    Round2OnGrid(Max(0.05, entry - points));
    assert OnPaiseGrid(0.05) by { assert 0.05 * 100.0 == 5.0; }
    RoundGrid(0.05);
  }

  /** A plan in terms of its stop distance `d` in premium, the reward `t` and the capital `c`. */
  predicate PlannedWith(p: RiskPlan, entry: real, d: real, t: real, c: real) {
    && p.entryPrice == entry && p.slPoints == d
    && (entry - d >= 0.05 ==> entry - d - 0.005 <= p.slPrice <= entry - d + 0.005)
    && (entry - d < 0.05 ==> p.slPrice == 0.05)
    && entry + t - 0.005 <= p.target1Price <= entry + t + 0.005
    && c - 0.005 <= p.capitalAtRisk <= c + 0.005
    && OnPaiseGrid(p.slPrice) && OnPaiseGrid(p.target1Price) && OnPaiseGrid(p.capitalAtRisk)
  }

  lemma PlanForFigures(entry: real, spotRisk: real, points: real, lotSize: int, capital: real, rr: real, t: real)
    requires t == points * rr
    ensures PlannedWith(PlanFor(entry, spotRisk, points, lotSize, capital, rr), entry, points, t, capital)
  {
    StopNear(entry, points);
    Round2Near(entry + t);
    Round2OnGrid(entry + t);
    Round2Near(capital);
    Round2OnGrid(capital);
  }

  lemma PlanIsFor(entry: real, spotEntry: real, spotSl: real, delta: real, lotSize: int,
                  totalCapital: real, riskPct: real, rr: real, d: real, c: real)
    requires d == Abs(spotEntry - spotSl) * Abs(delta) && c == totalCapital * (riskPct / 100.0)
    ensures ComputeRiskPlan(entry, spotEntry, spotSl, delta, lotSize, totalCapital, riskPct, rr)
         == PlanFor(entry, Abs(spotEntry - spotSl), d, lotSize, c, rr)
    ensures d >= 0.0
  {
    PointsNonNegative(spotEntry, spotSl, delta);
  }

  lemma PlanForInFigures(entry: real, spotRisk: real, d: real, lotSize: int, c: real, rr: real, t: real, riskPerLot: real)
    requires d >= 0.0 && t == d * rr && lotSize >= 1 && riskPerLot == d * lotSize as real
    ensures var p := PlanFor(entry, spotRisk, d, lotSize, c, rr);
      && PlannedWith(p, entry, d, t, c) && SizedFor(p, c, riskPerLot)
      && p.spotRiskPoints == spotRisk && p.quantity == p.lots * lotSize && p.target1Rr == rr
  {
    PlanForFigures(entry, spotRisk, d, lotSize, c, rr, t);
    PlanForIsSized(entry, spotRisk, d, lotSize, c, rr);
  }

  /** Every plan in figures: the stop lies the spot distance times the delta below the entry, the
      target that distance times the reward ratio above it, the capital is the given percentage of
      the total, and the lots fit it. */
  lemma PlanInFigures(entry: real, spotEntry: real, spotSl: real, delta: real, lotSize: int,
                      totalCapital: real, riskPct: real, rr: real, d: real, t: real, c: real, riskPerLot: real)
    requires d == Abs(spotEntry - spotSl) * Abs(delta) && t == d * rr && c == totalCapital * (riskPct / 100.0)
    requires lotSize >= 1 && riskPerLot == d * lotSize as real
    ensures var p := ComputeRiskPlan(entry, spotEntry, spotSl, delta, lotSize, totalCapital, riskPct, rr);
      && PlannedWith(p, entry, d, t, c) && SizedFor(p, c, riskPerLot)
      && p.spotRiskPoints == Abs(spotEntry - spotSl) && p.quantity == p.lots * lotSize && p.target1Rr == rr
  {
    PlanIsFor(entry, spotEntry, spotSl, delta, lotSize, totalCapital, riskPct, rr, d, c);
    PlanForInFigures(entry, Abs(spotEntry - spotSl), d, lotSize, c, rr, t, riskPerLot);
  }
}
