/** backtest/spot_trade_simulator.py: walking one trade forward over candles. */
module SpotTrades {
  import opened Basics
  import opened Buckets
  import opened Resampler
  import opened Aggregator
  import opened Patterns
  import opened SignalMachine

  datatype Outcome = T1ThenT2 | T1ThenSl | SlDirect | Stale

  datatype Levels = Levels(long: bool, entry: real, entryTime: int, sl: real, t1: real, t2: real)

  /** Where a trade stands after some candles. */
  datatype Walk = Walk(outcome: Outcome, exitPrice: Option<real>, exitTime: Option<int>, t1Time: Option<int>)

  datatype Terms = Terms(lotSize: int, r1: real, r2: real, bookingPct: int)

  function RiskPoints(s: SignalDecision): real { Abs(s.entry.close - s.structuralSl) }

  function LevelsOf(s: SignalDecision, terms: Terms): Levels {
    var entry, risk, long := s.entry.close, RiskPoints(s), s.direction == Bullish;
    Levels(long, entry, s.entry.openTime, s.structuralSl,
           if long then entry + risk * terms.r1 else entry - risk * terms.r1,
           if long then entry + risk * terms.r2 else entry - risk * terms.r2)
  }

  predicate HitsStop(lv: Levels, c: Candle, stop: real) { if lv.long then c.low <= stop else c.high >= stop }

  predicate HitsTarget(lv: Levels, c: Candle, target: real) { if lv.long then c.high >= target else c.low <= target }

  function WalkFrom(lv: Levels, cs: seq<Candle>, t1Time: Option<int>): Walk {
    if cs == [] then Walk(Stale, None, None, t1Time)
    else
      var c := cs[0];
      if c.openTime <= lv.entryTime then WalkFrom(lv, cs[1..], t1Time)
      else if t1Time.None? then
        if HitsStop(lv, c, lv.sl) then Walk(SlDirect, Some(lv.sl), Some(c.openTime), None)
        else if HitsTarget(lv, c, lv.t1) then WalkFrom(lv, cs[1..], Some(c.openTime))
        else WalkFrom(lv, cs[1..], None)
      else
        if HitsStop(lv, c, lv.entry) then Walk(T1ThenSl, Some(lv.entry), Some(c.openTime), t1Time)
        else if HitsTarget(lv, c, lv.t2) then Walk(T1ThenT2, Some(lv.t2), Some(c.openTime), t1Time)
        else WalkFrom(lv, cs[1..], t1Time)
  }

  predicate Decides(lv: Levels, c: Candle, stop: real, target: real) {
    c.openTime > lv.entryTime && (HitsStop(lv, c, stop) || HitsTarget(lv, c, target))
  }

  /** The first candle after the entry that touches either level, or the length. */
  function FirstLevelHit(lv: Levels, cs: seq<Candle>, stop: real, target: real): (k: nat)
    ensures k <= |cs| && (k < |cs| ==> Decides(lv, cs[k], stop, target))
    ensures forall j :: 0 <= j < k ==> !Decides(lv, cs[j], stop, target)
  {
    if cs == [] then 0
    else if Decides(lv, cs[0], stop, target) then 0
    else 1 + FirstLevelHit(lv, cs[1..], stop, target)
  }

  /** The runner: the first touch of breakeven or target 2 decides, ties going to the stop. */
  function RunnerWalk(lv: Levels, cs: seq<Candle>, t1Time: int): Walk {
    var k := FirstLevelHit(lv, cs, lv.entry, lv.t2);
    if k == |cs| then Walk(Stale, None, None, Some(t1Time))
    else if HitsStop(lv, cs[k], lv.entry) then Walk(T1ThenSl, Some(lv.entry), Some(cs[k].openTime), Some(t1Time))
    else Walk(T1ThenT2, Some(lv.t2), Some(cs[k].openTime), Some(t1Time))
  }

  /** The trade as two first passages: stop against target 1, then the runner from the next
      candle on. */
  function TwoPassages(lv: Levels, cs: seq<Candle>): Walk {
    var k := FirstLevelHit(lv, cs, lv.sl, lv.t1);
    if k == |cs| then Walk(Stale, None, None, None)
    else if HitsStop(lv, cs[k], lv.sl) then Walk(SlDirect, Some(lv.sl), Some(cs[k].openTime), None)
    else RunnerWalk(lv, cs[k + 1..], cs[k].openTime)
  }

  lemma {:induction false} RunnerIsFirstPassage(lv: Levels, cs: seq<Candle>, t1Time: int)
    ensures WalkFrom(lv, cs, Some(t1Time)) == RunnerWalk(lv, cs, t1Time)
  {
    if cs != [] { RunnerIsFirstPassage(lv, cs[1..], t1Time); }
  }

  lemma PassagesAfter(lv: Levels, cs: seq<Candle>)
    requires cs != [] && !Decides(lv, cs[0], lv.sl, lv.t1)
    ensures TwoPassages(lv, cs) == TwoPassages(lv, cs[1..])
  {
    var k := FirstLevelHit(lv, cs[1..], lv.sl, lv.t1);
    assert k < |cs[1..]| ==> cs[1..][k + 1..] == cs[k + 2..];
  }

  /** Walking candle by candle ends where the two first passages say, for every candle list. */
  lemma {:induction false} WalkIsTwoPassages(lv: Levels, cs: seq<Candle>)
    ensures WalkFrom(lv, cs, None) == TwoPassages(lv, cs)
  {
    if cs != [] {
      if Decides(lv, cs[0], lv.sl, lv.t1) {
        assert FirstLevelHit(lv, cs, lv.sl, lv.t1) == 0;
        RunnerIsFirstPassage(lv, cs[1..], cs[0].openTime);
      } else {
        PassagesAfter(lv, cs);
        WalkIsTwoPassages(lv, cs[1..]);
      }
    }
  }

  datatype Result = Result(points: real, rupees: real, rr: real)

  function Sign(lv: Levels): real { if lv.long then 1.0 else -1.0 }

  function Points(lv: Levels, w: Walk, bookingPct: int): real {
    var f := bookingPct as real / 100.0;
    var exit := if w.exitPrice.Some? then w.exitPrice.value else lv.entry;
    match w.outcome
    case SlDirect => Sign(lv) * (exit - lv.entry)
    case T1ThenSl => f * (Sign(lv) * (lv.t1 - lv.entry)) + (1.0 - f) * (Sign(lv) * (exit - lv.entry))
    case T1ThenT2 => f * (Sign(lv) * (lv.t1 - lv.entry)) + (1.0 - f) * (Sign(lv) * (lv.t2 - lv.entry))
    case Stale => 0.0
  }

  function ResultOf(lv: Levels, w: Walk, terms: Terms, risk: real): Result {
    var points := Points(lv, w, terms.bookingPct);
    Result(points, points * terms.lotSize as real, if risk != 0.0 then points / risk else 0.0)
  }

  // ---------------------------------------------------------------- stability

  /** A resolved trade is not changed by candles that come later. */
  lemma {:induction false} ResolvedIsFinal(lv: Levels, cs: seq<Candle>, more: seq<Candle>, t1Time: Option<int>)
    requires WalkFrom(lv, cs, t1Time).outcome != Stale
    ensures WalkFrom(lv, cs + more, t1Time) == WalkFrom(lv, cs, t1Time)
  {
    assert (cs + more)[1..] == cs[1..] + more;
    var c := cs[0];
    if c.openTime <= lv.entryTime {
      ResolvedIsFinal(lv, cs[1..], more, t1Time);
    } else if t1Time.None? {
      if HitsStop(lv, c, lv.sl) {
      } else if HitsTarget(lv, c, lv.t1) {
        ResolvedIsFinal(lv, cs[1..], more, Some(c.openTime));
      } else {
        ResolvedIsFinal(lv, cs[1..], more, None);
      }
    } else if !HitsStop(lv, c, lv.entry) && !HitsTarget(lv, c, lv.t2) {
      ResolvedIsFinal(lv, cs[1..], more, t1Time);
    }
  }

  // ---------------------------------------------------------------- mirror symmetry

  function MirrorCandle(c: Candle): Candle {
    c.(open := -c.open, high := -c.low, low := -c.high, close := -c.close)
  }

  function MirrorCandles(cs: seq<Candle>): (ms: seq<Candle>)
    ensures |ms| == |cs|
    ensures forall i :: 0 <= i < |cs| ==> ms[i] == MirrorCandle(cs[i])
  {
    seq(|cs|, i requires 0 <= i < |cs| => MirrorCandle(cs[i]))
  }

  /** The same trade on the chart turned upside down. */
  function MirrorSignal(s: SignalDecision): SignalDecision {
    s.(direction := if s.direction == Bullish then Bearish else Bullish,
       entry := MirrorCandle(s.entry), structuralSl := -s.structuralSl)
  }

  function MirrorLevels(lv: Levels): Levels {
    Levels(!lv.long, -lv.entry, lv.entryTime, -lv.sl, -lv.t1, -lv.t2)
  }

  function MirrorWalk(w: Walk): Walk {
    w.(exitPrice := if w.exitPrice.Some? then Some(-w.exitPrice.value) else None)
  }

  lemma {:induction false} WalkMirrors(lv: Levels, cs: seq<Candle>, t1Time: Option<int>)
    ensures WalkFrom(MirrorLevels(lv), MirrorCandles(cs), t1Time) == MirrorWalk(WalkFrom(lv, cs, t1Time))
  {
    if cs != [] {
      assert MirrorCandles(cs)[1..] == MirrorCandles(cs[1..]);
      WalkMirrors(lv, cs[1..], t1Time);
      WalkMirrors(lv, cs[1..], Some(cs[0].openTime));
    }
  }

  lemma PointsMirror(lv: Levels, w: Walk, bookingPct: int)
    ensures Points(MirrorLevels(lv), MirrorWalk(w), bookingPct) == Points(lv, w, bookingPct)
  {
    var exit := if w.exitPrice.Some? then w.exitPrice.value else lv.entry;
    assert Sign(MirrorLevels(lv)) * (-exit - -lv.entry) == Sign(lv) * (exit - lv.entry);
    assert Sign(MirrorLevels(lv)) * (-lv.t1 - -lv.entry) == Sign(lv) * (lv.t1 - lv.entry);
    assert Sign(MirrorLevels(lv)) * (-lv.t2 - -lv.entry) == Sign(lv) * (lv.t2 - lv.entry);
  }

  function Simulate(s: SignalDecision, cs: seq<Candle>, terms: Terms): (Walk, Result) {
    var lv := LevelsOf(s, terms);
    var w := WalkFrom(lv, cs, None);
    (w, ResultOf(lv, w, terms, RiskPoints(s)))
  }

  lemma LevelsMirror(s: SignalDecision, terms: Terms)
    ensures LevelsOf(MirrorSignal(s), terms) == MirrorLevels(LevelsOf(s, terms))
    ensures RiskPoints(MirrorSignal(s)) == RiskPoints(s)
  {
  }

  lemma ResultMirrors(lv: Levels, w: Walk, terms: Terms, risk: real)
    ensures ResultOf(MirrorLevels(lv), MirrorWalk(w), terms, risk) == ResultOf(lv, w, terms, risk)
  {
    PointsMirror(lv, w, terms.bookingPct);
  }

  /** Mirror symmetry: negating all prices, exchanging highs and lows and flipping the direction
      leaves the outcome, the times, the points, the rupees and the R multiple unchanged. */
  lemma SimulationMirrors(s: SignalDecision, cs: seq<Candle>, terms: Terms)
    ensures var (w, r) := Simulate(s, cs, terms);
      var (w', r') := Simulate(MirrorSignal(s), MirrorCandles(cs), terms);
      r' == r && w' == MirrorWalk(w)
  {
    LevelsMirror(s, terms);
    WalkMirrors(LevelsOf(s, terms), cs, None);
    ResultMirrors(LevelsOf(s, terms), WalkFrom(LevelsOf(s, terms), cs, None), terms, RiskPoints(s));
  }

  // ---------------------------------------------------------------- the R multiple

  lemma {:induction false} ExitPrices(lv: Levels, cs: seq<Candle>, t1Time: Option<int>)
    ensures var w := WalkFrom(lv, cs, t1Time);
      && (w.outcome == SlDirect ==> w.exitPrice == Some(lv.sl))
      && (w.outcome == T1ThenSl ==> w.exitPrice == Some(lv.entry))
      && (w.outcome == T1ThenT2 ==> w.exitPrice == Some(lv.t2))
  {
    if cs != [] {
      ExitPrices(lv, cs[1..], t1Time);
      ExitPrices(lv, cs[1..], Some(cs[0].openTime));
    }
  }

  lemma Quotient(x: real, r: real)
    requires r != 0.0
    ensures (r * x) / r == x
  {
  }

  lemma BlendedR(f: real, a: real, b: real, risk: real)
    requires risk != 0.0
    ensures (f * (risk * a) + (1.0 - f) * (risk * b)) / risk == f * a + (1.0 - f) * b
  {
    var x := f * a + (1.0 - f) * b;
    assert f * (risk * a) == risk * (f * a);
    assert (1.0 - f) * (risk * b) == risk * ((1.0 - f) * b);
    assert risk * x == risk * (f * a) + risk * ((1.0 - f) * b);
    Quotient(x, risk);
  }

  lemma TargetsInRisk(s: SignalDecision, terms: Terms)
    ensures var lv, risk := LevelsOf(s, terms), RiskPoints(s);
      Sign(lv) * (lv.t1 - lv.entry) == risk * terms.r1 && Sign(lv) * (lv.t2 - lv.entry) == risk * terms.r2
  {
    var risk := RiskPoints(s);
    var a, b := risk * terms.r1, risk * terms.r2;
  }

  predicate StopOnLossSide(s: SignalDecision) {
    if s.direction == Bullish then s.structuralSl < s.entry.close else s.structuralSl > s.entry.close
  }

  /** R depends on the outcome alone.  A direct stop-out is worth -1 exactly when the stop is on
      the loss side, and +1 when it is beyond the entry. */
  lemma RByOutcome(s: SignalDecision, cs: seq<Candle>, terms: Terms)
    requires s.structuralSl != s.entry.close
    ensures var (w, r) := Simulate(s, cs, terms);
      var f := terms.bookingPct as real / 100.0;
      r.rr == match w.outcome
        case SlDirect => if StopOnLossSide(s) then -1.0 else 1.0
        case T1ThenSl => f * terms.r1
        case T1ThenT2 => f * terms.r1 + (1.0 - f) * terms.r2
        case Stale => 0.0
  {
    var lv, risk := LevelsOf(s, terms), RiskPoints(s);
    var w := WalkFrom(lv, cs, None);
    ExitPrices(lv, cs, None);
    RBy(lv, w, terms, risk, StopOnLossSide(s)) by {
      TargetsInRisk(s, terms);
    }
  }

  lemma UnitQuotients(risk: real)
    requires risk != 0.0
    ensures risk / risk == 1.0 && -risk / risk == -1.0
  {
    Quotient(1.0, risk);
    Quotient(-1.0, risk);
  }

  lemma RatioOf(lv: Levels, w: Walk, terms: Terms, risk: real, points: real)
    requires risk != 0.0 && Points(lv, w, terms.bookingPct) == points
    ensures ResultOf(lv, w, terms, risk).rr == points / risk
  {
  }

  lemma RBooked(lv: Levels, w: Walk, terms: Terms, risk: real, f: real, a: real, b: real)
    requires risk != 0.0
    requires Points(lv, w, terms.bookingPct) == f * (risk * a) + (1.0 - f) * (risk * b)
    ensures ResultOf(lv, w, terms, risk).rr == f * a + (1.0 - f) * b
  {
    var points := Points(lv, w, terms.bookingPct);
    RatioOf(lv, w, terms, risk, points);
    assert points / risk == f * a + (1.0 - f) * b by { BlendedR(f, a, b, risk); }
  }

  lemma RBreakeven(lv: Levels, w: Walk, terms: Terms, risk: real, f: real)
    requires risk != 0.0 && w.outcome == T1ThenSl && w.exitPrice == Some(lv.entry)
    requires f == terms.bookingPct as real / 100.0
    requires Sign(lv) * (lv.t1 - lv.entry) == risk * terms.r1
    ensures ResultOf(lv, w, terms, risk).rr == f * terms.r1
  {
    assert Sign(lv) * (lv.entry - lv.entry) == 0.0;
    assert risk * 0.0 == 0.0;
    RBooked(lv, w, terms, risk, f, terms.r1, 0.0);
  }

  lemma RTarget2(lv: Levels, w: Walk, terms: Terms, risk: real, f: real)
    requires risk != 0.0 && w.outcome == T1ThenT2 && f == terms.bookingPct as real / 100.0
    requires Sign(lv) * (lv.t1 - lv.entry) == risk * terms.r1 && Sign(lv) * (lv.t2 - lv.entry) == risk * terms.r2
    ensures ResultOf(lv, w, terms, risk).rr == f * terms.r1 + (1.0 - f) * terms.r2
  {
    RBooked(lv, w, terms, risk, f, terms.r1, terms.r2);
  }

  lemma RStopped(lv: Levels, w: Walk, terms: Terms, risk: real, points: real)
    requires risk != 0.0 && w.outcome == SlDirect && w.exitPrice == Some(lv.sl)
    requires Sign(lv) * (lv.sl - lv.entry) == points && (points == risk || points == -risk)
    ensures ResultOf(lv, w, terms, risk).rr == if points == risk then 1.0 else -1.0
  {
    RatioOf(lv, w, terms, risk, points);
    UnitQuotients(risk);
  }

  lemma RBy(lv: Levels, w: Walk, terms: Terms, risk: real, lossSide: bool)
    requires risk > 0.0
    requires Sign(lv) * (lv.t1 - lv.entry) == risk * terms.r1 && Sign(lv) * (lv.t2 - lv.entry) == risk * terms.r2
    requires w.outcome == T1ThenSl ==> w.exitPrice == Some(lv.entry)
    requires w.outcome == SlDirect ==> w.exitPrice == Some(lv.sl)
    requires Sign(lv) * (lv.sl - lv.entry) == if lossSide then -risk else risk
    ensures var f := terms.bookingPct as real / 100.0;
      ResultOf(lv, w, terms, risk).rr == match w.outcome
        case SlDirect => if lossSide then -1.0 else 1.0
        case T1ThenSl => f * terms.r1
        case T1ThenT2 => f * terms.r1 + (1.0 - f) * terms.r2
        case Stale => 0.0
  {
    match w.outcome
    case SlDirect => RStopped(lv, w, terms, risk, if lossSide then -risk else risk);
    case T1ThenSl => RBreakeven(lv, w, terms, risk, terms.bookingPct as real / 100.0);
    case T1ThenT2 => RTarget2(lv, w, terms, risk, terms.bookingPct as real / 100.0);
    case Stale => RatioOf(lv, w, terms, risk, 0.0);
  }

  // ---------------------------------------------------------------- pessimism before target 1

  predicate AfterEntry(lv: Levels, c: Candle) { c.openTime > lv.entryTime }

  /** Candle `k` touches the stop and no earlier one after the entry touched target 1. */
  predicate StopsAt(lv: Levels, cs: seq<Candle>, k: nat) {
    && k < |cs| && AfterEntry(lv, cs[k]) && HitsStop(lv, cs[k], lv.sl)
    && forall j :: 0 <= j < k && AfterEntry(lv, cs[j]) ==> !HitsTarget(lv, cs[j], lv.t1)
  }

  lemma {:induction false} BookedIsNotDirect(lv: Levels, cs: seq<Candle>, t: int)
    ensures WalkFrom(lv, cs, Some(t)).outcome != SlDirect
  {
    if cs != [] { BookedIsNotDirect(lv, cs[1..], t); }
  }

  lemma {:induction false} DirectIff(lv: Levels, cs: seq<Candle>)
    ensures WalkFrom(lv, cs, None).outcome == SlDirect <==> exists k :: StopsAt(lv, cs, k)
  {
    if cs != [] {
      var c, rest := cs[0], cs[1..];
      DirectIff(lv, rest);
      BookedIsNotDirect(lv, rest, c.openTime);
      if AfterEntry(lv, c) && HitsStop(lv, c, lv.sl) {
        assert StopsAt(lv, cs, 0);
      } else if AfterEntry(lv, c) && HitsTarget(lv, c, lv.t1) {
        assert forall k: nat :: 0 < k ==> !StopsAt(lv, cs, k);
      } else {
        forall k: nat | StopsAt(lv, cs, k) ensures StopsAt(lv, rest, k - 1) {
          assert forall j :: 0 <= j < |rest| ==> rest[j] == cs[j + 1];
        }
        forall k: nat | StopsAt(lv, rest, k) ensures StopsAt(lv, cs, k + 1) {
          assert forall j :: 0 < j < |cs| ==> cs[j] == rest[j - 1];
        }
      }
    }
  }

  predicate BarStops(lv: Levels, bar: Bar) { if lv.long then bar.low <= lv.sl else bar.high >= lv.sl }

  predicate BarReachesT1(lv: Levels, bar: Bar) { if lv.long then bar.high >= lv.t1 else bar.low <= lv.t1 }

  /** Bar `i` touches the stop, and target 1 was touched before it at most in its own bucket. */
  predicate StopsFirst(lv: Levels, bars: seq<Bar>, n: int, i: nat)
    requires n >= 1
  {
    && i < |bars| && BarStops(lv, bars[i])
    && forall j :: 0 <= j < i && BarReachesT1(lv, bars[j]) ==> BucketOfBar(bars[j], n) == BucketOfBar(bars[i], n)
  }

  /** A candle touches a level exactly when one of its bars does. */
  lemma CandleTouches(lv: Levels, inst: string, n: int, bars: seq<Bar>, k: nat)
    requires n >= 1 && k < |Resample(inst, n, bars)|
    ensures var c := Resample(inst, n, bars)[k];
      && c.openTime == BucketOrder(bars, n)[k]
      && (HitsStop(lv, c, lv.sl) <==>
            exists i :: 0 <= i < |bars| && BucketOfBar(bars[i], n) == c.openTime && BarStops(lv, bars[i]))
      && (HitsTarget(lv, c, lv.t1) <==>
            exists i :: 0 <= i < |bars| && BucketOfBar(bars[i], n) == c.openTime && BarReachesT1(lv, bars[i]))
  {
    var b := BucketOrder(bars, n)[k];
    var bs := InBucket(bars, n, b);
    OrderIsNonEmptyBuckets(bars, n);
    BucketMembers(bars, n, b);
    Extremes(bs);
    var lo :| lo in bs && lo.low == MinLow(bs);
    var hi :| hi in bs && hi.high == MaxHigh(bs);
    var i :| 0 <= i < |bars| && bars[i] == lo && BucketOfBar(bars[i], n) == b;
    var j :| 0 <= j < |bars| && bars[j] == hi && BucketOfBar(bars[j], n) == b;
  }

  lemma BarHasCandle(inst: string, n: int, bars: seq<Bar>, i: nat)
    requires n >= 1 && i < |bars|
    ensures exists k :: 0 <= k < |Resample(inst, n, bars)| && Resample(inst, n, bars)[k].openTime == BucketOfBar(bars[i], n)
  {
    var b := BucketOfBar(bars[i], n);
    BucketMembers(bars, n, b);
    OrderIsNonEmptyBuckets(bars, n);
    var k :| 0 <= k < |BucketOrder(bars, n)| && BucketOrder(bars, n)[k] == b;
    assert Resample(inst, n, bars)[k].openTime == b;
  }

  lemma StopsFirstStopsAt(lv: Levels, inst: string, n: int, bars: seq<Bar>, i: nat)
    requires n >= 1 && BucketsAscend(bars, n) && StopsFirst(lv, bars, n, i)
    requires forall j :: 0 <= j < |bars| ==> BucketOfBar(bars[j], n) > lv.entryTime
    ensures exists k :: StopsAt(lv, Resample(inst, n, bars), k)
  {
    var r := Resample(inst, n, bars);
    BarHasCandle(inst, n, bars, i);
    LastBucketIsLast(inst, n, bars);
    var k :| 0 <= k < |r| && r[k].openTime == BucketOfBar(bars[i], n);
    CandleTouches(lv, inst, n, bars, k);
    forall j | 0 <= j < k && AfterEntry(lv, r[j]) ensures !HitsTarget(lv, r[j], lv.t1) {
      CandleTouches(lv, inst, n, bars, j);
      assert r[j].openTime < r[k].openTime;
      forall q | 0 <= q < |bars| && BucketOfBar(bars[q], n) == r[j].openTime ensures !BarReachesT1(lv, bars[q]) {
        assert q < i;
      }
    }
    assert StopsAt(lv, r, k);
  }

  lemma LaterOpens(r: seq<Candle>, k: nat, h: nat)
    requires OpensIncrease(r) && k < |r| && h < |r|
    ensures k < h ==> r[k].openTime < r[h].openTime
  {
  }

  lemma StopsAtStopsFirst(lv: Levels, inst: string, n: int, bars: seq<Bar>, k: nat)
    requires n >= 1 && BucketsAscend(bars, n) && StopsAt(lv, Resample(inst, n, bars), k)
    requires forall j :: 0 <= j < |bars| ==> BucketOfBar(bars[j], n) > lv.entryTime
    ensures exists i :: StopsFirst(lv, bars, n, i)
  {
    var r := Resample(inst, n, bars);
    CandleTouches(lv, inst, n, bars, k);
    var i :| 0 <= i < |bars| && BucketOfBar(bars[i], n) == r[k].openTime && BarStops(lv, bars[i]);
    LastBucketIsLast(inst, n, bars);
    forall j | 0 <= j < i && BarReachesT1(lv, bars[j]) ensures BucketOfBar(bars[j], n) == BucketOfBar(bars[i], n) {
      BarHasCandle(inst, n, bars, j);
      var h :| 0 <= h < |r| && r[h].openTime == BucketOfBar(bars[j], n);
      CandleTouches(lv, inst, n, bars, h);
      assert AfterEntry(lv, r[h]) && HitsTarget(lv, r[h], lv.t1);
      assert h >= k;
      LaterOpens(r, k, h);
    }
    assert StopsFirst(lv, bars, n, i);
  }

  /** On the candles of any finer bars after the entry, a direct stop-out is reported exactly
      when some bar touches the stop and target 1 was touched before it at most within the same
      candle: the simulator never misses a stop that came first, and is wrong about the order
      only inside one candle. */
  lemma DirectStopIff(lv: Levels, inst: string, n: int, bars: seq<Bar>)
    requires n >= 1 && BucketsAscend(bars, n)
    requires forall j :: 0 <= j < |bars| ==> BucketOfBar(bars[j], n) > lv.entryTime
    ensures WalkFrom(lv, Resample(inst, n, bars), None).outcome == SlDirect <==> exists i :: StopsFirst(lv, bars, n, i)
  {
    DirectIff(lv, Resample(inst, n, bars));
    forall i: nat | StopsFirst(lv, bars, n, i) ensures exists k :: StopsAt(lv, Resample(inst, n, bars), k) {
      StopsFirstStopsAt(lv, inst, n, bars, i);
    }
    forall k: nat | StopsAt(lv, Resample(inst, n, bars), k) ensures exists i :: StopsFirst(lv, bars, n, i) {
      StopsAtStopsFirst(lv, inst, n, bars, k);
    }
  }

  predicate TickStops(lv: Levels, t: Tick) { if lv.long then t.price <= lv.sl else t.price >= lv.sl }

  predicate TickReachesT1(lv: Levels, t: Tick) { if lv.long then t.price >= lv.t1 else t.price <= lv.t1 }

  predicate IsTick(ticks: seq<Tick>, bar: Bar) { exists j :: 0 <= j < |ticks| && bar == TickBar(ticks[j]) }

  /** Every accepted bar is one of the ticks. */
  lemma {:induction false} AcceptedAreTicks(ticks: seq<Tick>, n: int)
    requires n >= 1
    ensures forall bar :: bar in Accepted([], ticks, n) ==> IsTick(ticks, bar)
  {
    if ticks != [] {
      AcceptedAreTicks(Front(ticks), n);
      forall bar | bar in Accepted([], ticks, n) ensures IsTick(ticks, bar) {
        if bar in Accepted([], Front(ticks), n) {
          var j :| 0 <= j < |Front(ticks)| && bar == TickBar(Front(ticks)[j]);
          assert bar == TickBar(ticks[j]);
        } else {
          assert bar == TickBar(ticks[|ticks| - 1]);
        }
      }
    }
  }

  /** A tick that is on time comes right after the accepted ones before it. */
  lemma {:induction false} AcceptedInOrder(ticks: seq<Tick>, n: int, i: nat)
    requires n >= 1 && i < |ticks| && OnTime([], ticks[..i], ticks[i], n)
    ensures var before, bars := Accepted([], ticks[..i], n), Accepted([], ticks, n);
      |before| < |bars| && bars[..|before|] == before && bars[|before|] == TickBar(ticks[i])
  {
    if i == |ticks| - 1 {
      assert Front(ticks) == ticks[..i];
    } else {
      assert Front(ticks)[..i] == ticks[..i];
      AcceptedInOrder(Front(ticks), n, i);
    }
  }

  /** Pessimism for live candles: take any ticks after the entry, late ones included, through the
      aggregator.  If an on-time tick touches the stop and none before it target 1, the trade is
      a direct stop-out, whatever follows. */
  lemma TicksThatStopFirst(lv: Levels, inst: string, n: int, ticks: seq<Tick>, i: nat)
    requires n >= 1 && i < |ticks| && TickStops(lv, ticks[i]) && OnTime([], ticks[..i], ticks[i], n)
    requires forall j :: 0 <= j < i ==> !TickReachesT1(lv, ticks[j])
    requires forall j :: 0 <= j < |ticks| ==> BucketStart(ticks[j].time, n) > lv.entryTime
    ensures var s := AfterTicks(inst, n, AggState(None, []), ticks);
      && s.current.Some?
      && WalkFrom(lv, s.emitted + [s.current.value], None).outcome == SlDirect
  {
    var before, bars := Accepted([], ticks[..i], n), Accepted([], ticks, n);
    StreamEqualsBatch(inst, n, ticks);
    AcceptedAscend(ticks, n);
    AcceptedAreTicks(ticks, n);
    AcceptedAreTicks(ticks[..i], n);
    assert forall p :: 0 <= p < |bars| ==> bars[p] in bars;
    AcceptedInOrder(ticks, n, i);
    forall p | 0 <= p < |before| ensures !BarReachesT1(lv, bars[p]) {
      assert bars[p] == before[p] && before[p] in before;
      var j :| 0 <= j < i && before[p] == TickBar(ticks[..i][j]);
    }
    assert StopsFirst(lv, bars, n, |before|);
    DirectStopIff(lv, inst, n, bars);
  }

  lemma AcceptedAscend(ticks: seq<Tick>, n: int)
    requires n >= 1
    ensures BucketsAscend(Accepted([], ticks, n), n)
  {
    StreamInvariant("", n, [], [], ticks);
    assert [] + Accepted([], ticks, n) == Accepted([], ticks, n);
  }

  /** After target 1 the simulator can be optimistic: a return to breakeven inside the target's
      own candle is skipped, where the same prices in finer candles stop the runner out. */
  lemma OptimisticAfterTarget1()
    ensures exists lv, a, b, c ::
      && WalkFrom(lv, [a, b, c], None).outcome == T1ThenSl
      && WalkFrom(lv, [MergeBar(a, AsBar(b)), c], None).outcome == T1ThenT2
  {
    var lv := Levels(true, 100.0, 0, 90.0, 115.0, 130.0);
    var a := Candle("X", 3, 1, 115.0, 115.0, 115.0, 115.0, 1);
    var b := Candle("X", 3, 2, 100.0, 100.0, 100.0, 100.0, 1);
    var c := Candle("X", 3, 3, 130.0, 130.0, 130.0, 130.0, 1);
    assert [a, b, c][1..] == [b, c] && [b, c][1..] == [c];
    var ab := MergeBar(a, AsBar(b));
    assert [ab, c][1..] == [c];
    assert WalkFrom(lv, [c], Some(1)).outcome == T1ThenT2;
    assert WalkFrom(lv, [b, c], Some(1)).outcome == T1ThenSl;
    assert WalkFrom(lv, [a, b, c], None).outcome == T1ThenSl;
    assert WalkFrom(lv, [MergeBar(a, AsBar(b)), c], None).outcome == T1ThenT2;
  }

  // ---------------------------------------------------------------- forward candles

  /** The candles that open after `t`. */
  function After(cs: seq<Candle>, t: int): seq<Candle> {
    if cs == [] then [] else (if cs[0].openTime > t then [cs[0]] else []) + After(cs[1..], t)
  }

  /** Handing the simulator only the candles after the entry or the whole history is the same. */
  lemma {:induction false} ForwardFilterIsRedundant(lv: Levels, cs: seq<Candle>, t1Time: Option<int>)
    ensures WalkFrom(lv, After(cs, lv.entryTime), t1Time) == WalkFrom(lv, cs, t1Time)
  {
    if cs != [] {
      var rest := After(cs[1..], lv.entryTime);
      ForwardFilterIsRedundant(lv, cs[1..], t1Time);
      ForwardFilterIsRedundant(lv, cs[1..], Some(cs[0].openTime));
      if cs[0].openTime > lv.entryTime {
        assert ([cs[0]] + rest)[1..] == rest;
      } else {
        assert [] + rest == rest;
      }
    }
  }

  /** Points, rupees and R are one result: R times the risk, and the points times the lot. */
  lemma ResultScales(s: SignalDecision, cs: seq<Candle>, terms: Terms)
    ensures var r := Simulate(s, cs, terms).1;
      && r.rupees == r.points * terms.lotSize as real
      && (RiskPoints(s) != 0.0 ==> r.points == r.rr * RiskPoints(s))
      && (RiskPoints(s) == 0.0 ==> r.rr == 0.0)
  {
    var r := Simulate(s, cs, terms).1;
    if RiskPoints(s) != 0.0 { QuotientTimes(r.points, RiskPoints(s)); }
  }

  lemma QuotientTimes(x: real, r: real)
    requires r != 0.0
    ensures (x / r) * r == x
  {
  }

  // ---------------------------------------------------------------- the simulator

  class SimulatedTrade {
    const lv: Levels
    const terms: Terms
    var outcome: Outcome
    var exitPrice: Option<real>
    var exitTime: Option<int>
    var target1HitTime: Option<int>
    var points: real
    var rupees: real
    var rr: real

    constructor (lv: Levels, terms: Terms)
      ensures this.lv == lv && this.terms == terms
      ensures View() == Walk(Stale, None, None, None)
    {
      this.lv, this.terms := lv, terms;
      outcome, exitPrice, exitTime, target1HitTime := Stale, None, None, None;
      points, rupees, rr := 0.0, 0.0, 0.0;
    }

    ghost function View(): Walk
      reads this
    {
      Walk(outcome, exitPrice, exitTime, target1HitTime)
    }

    ghost function Summary(): (Walk, Result)
      reads this
    {
      (View(), Result(points, rupees, rr))
    }

    method BlendedPoints() returns (blended: real)
      ensures blended == Points(lv, View(), terms.bookingPct)
    {
      var f := terms.bookingPct as real / 100.0;
      var exit := if exitPrice.Some? then exitPrice.value else lv.entry;
      match outcome {
        case SlDirect =>
          blended := Sign(lv) * (exit - lv.entry);
        case T1ThenSl =>
          var t1Points, remainder := Sign(lv) * (lv.t1 - lv.entry), Sign(lv) * (exit - lv.entry);
          blended := f * t1Points + (1.0 - f) * remainder;
        case T1ThenT2 =>
          var t1Points, t2Points := Sign(lv) * (lv.t1 - lv.entry), Sign(lv) * (lv.t2 - lv.entry);
          blended := f * t1Points + (1.0 - f) * t2Points;
        case Stale =>
          blended := 0.0;
      }
    }

    method ComputePnl(risk: real)
      modifies this`points, this`rupees, this`rr
      ensures Result(points, rupees, rr) == ResultOf(lv, View(), terms, risk)
    {
      var blended := BlendedPoints();
      points, rupees := blended, blended * terms.lotSize as real;
      rr := if risk != 0.0 then blended / risk else 0.0;
    }
  }

  method SimulateSpotTrade(s: SignalDecision, cs: seq<Candle>, terms: Terms) returns (trade: SimulatedTrade)
    ensures fresh(trade)
    ensures trade.Summary() == Simulate(s, cs, terms)
  {
    var lv := LevelsOf(s, terms);
    trade := new SimulatedTrade(lv, terms);
    var currentSl := lv.sl;
    var target1Booked := false;
    var k := 0;
    while k < |cs|
      invariant k <= |cs|
      invariant trade.outcome == Stale && trade.exitPrice == None && trade.exitTime == None
      invariant target1Booked <==> trade.target1HitTime.Some?
      invariant currentSl == if target1Booked then lv.entry else lv.sl
      invariant WalkFrom(lv, cs, None) == WalkFrom(lv, cs[k..], trade.target1HitTime)
    {
      var c := cs[k];
      assert cs[k..][1..] == cs[k + 1..];
      k := k + 1;
      if c.openTime <= lv.entryTime { continue; }
      var hitSl := HitsStop(lv, c, currentSl);
      if !target1Booked {
        var hitT1 := HitsTarget(lv, c, lv.t1);
        if hitSl && hitT1 { hitT1 := false; }
        if hitSl {
          trade.outcome, trade.exitPrice, trade.exitTime := SlDirect, Some(currentSl), Some(c.openTime);
          break;
        }
        if hitT1 {
          target1Booked := true;
          currentSl := lv.entry;
          trade.target1HitTime := Some(c.openTime);
        }
      } else {
        var hitT2 := HitsTarget(lv, c, lv.t2);
        if hitSl && hitT2 { hitT2 := false; }
        if hitT2 {
          trade.outcome, trade.exitPrice, trade.exitTime := T1ThenT2, Some(lv.t2), Some(c.openTime);
          break;
        }
        if hitSl {
          trade.outcome, trade.exitPrice, trade.exitTime := T1ThenSl, Some(currentSl), Some(c.openTime);
          break;
        }
      }
    }
    assert trade.View() == WalkFrom(lv, cs, None);
    trade.ComputePnl(RiskPoints(s));
  }
}
