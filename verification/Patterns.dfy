/** The pure checks of the signal pipeline: strategy/sweep_detector.py,
    strategy/displacement.py and strategy/filters.py.
 */
module Patterns {
  import opened Basics
  import opened Buckets

  datatype Direction = Bearish | Bullish

  // ---------------------------------------------------------------- sweep

  datatype SweepEvent = SweepEvent(direction: Direction, level: real, candle: Candle, pierce: real)

  function DetectSweep(c: Candle, levelHigh: real, levelLow: real): Option<SweepEvent> {
    if c.high > levelHigh && c.close < levelHigh then
      Some(SweepEvent(Bearish, levelHigh, c, c.high - levelHigh))
    else if c.low < levelLow && c.close > levelLow then
      Some(SweepEvent(Bullish, levelLow, c, levelLow - c.low))
    else None
  }

  /** A sweep is a wick through a level with the close back on the other side; a candle that
      does this to both levels counts as bearish only. */
  lemma SweepMeaning(c: Candle, levelHigh: real, levelLow: real)
    ensures match DetectSweep(c, levelHigh, levelLow)
      case None => !(c.close < levelHigh < c.high) && !(c.low < levelLow < c.close)
      case Some(s) =>
        && s.candle == c && s.pierce > 0.0
        && (s.direction == Bearish <==> c.close < levelHigh < c.high)
        && (if s.direction == Bearish then s.level == levelHigh && c.high == s.level + s.pierce
            else s.level == levelLow && c.low == s.level - s.pierce && c.low < levelLow < c.close)
  {
  }

  /** A bearish sweep is reported although the bullish test holds too: exactly when the candle
      pierces both levels and closes between them, and some candle does. */
  lemma SweepsBothIff(c: Candle, levelHigh: real, levelLow: real)
    ensures var s := DetectSweep(c, levelHigh, levelLow);
      s.Some? && s.value.direction == Bearish && c.low < levelLow && c.close > levelLow
      <==> c.low < levelLow < c.close < levelHigh < c.high
    ensures exists d: Candle :: WellFormed(d) && d.low < 90.0 < d.close < 110.0 < d.high
  {
    var d := Candle("", 3, 0, 100.0, 120.0, 80.0, 100.0, 1);
    assert WellFormed(d) && d.low < 90.0 < d.close < 110.0 < d.high;
  }

  // ---------------------------------------------------------------- displacement

  datatype Displacement = Displacement(direction: Direction, candle: Candle, ratio: real)

  function TotalRange(cs: seq<Candle>): real {
    if cs == [] then 0.0 else cs[0].high - cs[0].low + TotalRange(cs[1..])
  }

  function AverageTrueRange(cs: seq<Candle>): real {
    if cs == [] then 0.0 else TotalRange(cs) / |cs| as real
  }

  function BodySize(c: Candle): real { Abs(c.close - c.open) }

  function SwingHigh(cs: seq<Candle>, default: real): real {
    if cs == [] then default else if |cs| == 1 then cs[0].high else Max(cs[0].high, SwingHigh(cs[1..], default))
  }

  function SwingLow(cs: seq<Candle>, default: real): real {
    if cs == [] then default else if |cs| == 1 then cs[0].low else Min(cs[0].low, SwingLow(cs[1..], default))
  }

  function DetectDisplacement(c: Candle, lookback: seq<Candle>, swingHigh: real, swingLow: real,
                              multiplier: real): Option<Displacement>
  {
    var atr := AverageTrueRange(lookback);
    if atr <= 0.0 then None
    else
      var ratio := BodySize(c) / atr;
      if ratio <= multiplier then None
      else if c.close > c.open && c.close > swingHigh then Some(Displacement(Bullish, c, ratio))
      else if !(c.close > c.open) && c.close < swingLow then Some(Displacement(Bearish, c, ratio))
      else None
  }

  lemma {:induction false} SwingBounds(cs: seq<Candle>, default: real, x: real)
    requires cs != []
    ensures x > SwingHigh(cs, default) <==> forall i :: 0 <= i < |cs| ==> x > cs[i].high
    ensures x < SwingLow(cs, default) <==> forall i :: 0 <= i < |cs| ==> x < cs[i].low
  {
    if |cs| > 1 {
      SwingBounds(cs[1..], default, x);
      assert forall i :: 0 <= i < |cs| - 1 ==> cs[1..][i] == cs[i + 1];
      assert forall i :: 1 <= i < |cs| ==> cs[i] == cs[1..][i - 1];
    }
  }

  /** The candle closes beyond everything the lookback traded, in the direction of its body. */
  predicate BreaksStructure(c: Candle, lookback: seq<Candle>) {
    if c.close > c.open then forall i :: 0 <= i < |lookback| ==> c.close > lookback[i].high
    else forall i :: 0 <= i < |lookback| ==> c.close < lookback[i].low
  }

  /** A body of more than the multiple of the average range of the lookback, and a close beyond
      all of it. */
  predicate IsDisplacement(c: Candle, lookback: seq<Candle>, multiplier: real) {
    && lookback != [] && AverageTrueRange(lookback) > 0.0
    && Abs(c.close - c.open) > multiplier * AverageTrueRange(lookback)
    && BreaksStructure(c, lookback)
  }

  function BodyDirection(c: Candle): Direction { if c.close > c.open then Bullish else Bearish }

  /** A displacement is found exactly when there is one, in the direction of its body. */
  lemma DisplacementMeaning(c: Candle, lookback: seq<Candle>, multiplier: real)
    ensures var d := DetectDisplacement(c, lookback, SwingHigh(lookback, c.high), SwingLow(lookback, c.low), multiplier);
      && (d.Some? <==> IsDisplacement(c, lookback, multiplier))
      && (d.Some? ==> d.value.direction == BodyDirection(c))
  {
    if lookback != [] {
      SwingBounds(lookback, c.high, c.close);
      SwingBounds(lookback, c.low, c.close);
      if AverageTrueRange(lookback) > 0.0 { RatioOver(BodySize(c), AverageTrueRange(lookback), multiplier); }
    }
  }

  /** Its ratio is the body over the average range. */
  lemma RatioOfDisplacement(c: Candle, lookback: seq<Candle>, swingHigh: real, swingLow: real, multiplier: real)
    ensures var d := DetectDisplacement(c, lookback, swingHigh, swingLow, multiplier);
      d.Some? ==>
        && AverageTrueRange(lookback) > 0.0 && d.value.ratio == Abs(c.close - c.open) / AverageTrueRange(lookback)
        && d.value.direction == BodyDirection(c)
  {
  }

  /** The average range is the total of the ranges over their number. */
  lemma {:induction false} AverageMeaning(a: seq<Candle>, b: seq<Candle>, c: Candle)
    ensures TotalRange([c]) == c.high - c.low && TotalRange(a + b) == TotalRange(a) + TotalRange(b)
    ensures a != [] ==> AverageTrueRange(a) == TotalRange(a) / |a| as real
    ensures AverageTrueRange([]) == 0.0
  {
    assert [c][1..] == [];
    if a == [] {
      assert a + b == b;
    } else {
      assert (a + b)[1..] == a[1..] + b;
      AverageMeaning(a[1..], b, c);
    }
  }

  lemma RatioOver(x: real, a: real, m: real)
    requires a > 0.0
    ensures x / a > m <==> x > m * a
  {
    assert (x / a) * a == x;
  }

  // ---------------------------------------------------------------- fair value gap

  datatype FairValueGap = FairValueGap(direction: Direction, gapHigh: real, gapLow: real, formedAt: int)

  function DetectFvg(before: Candle, middle: Candle, after: Candle): Option<FairValueGap> {
    if before.low > after.high then
      Some(FairValueGap(Bearish, before.low, after.high, middle.openTime))
    else if before.high < after.low then
      Some(FairValueGap(Bullish, after.low, before.high, middle.openTime))
    else None
  }

  /** The pullback test of the retest watcher. */
  predicate Touches(c: Candle, fvg: FairValueGap) {
    c.low <= fvg.gapHigh && c.high >= fvg.gapLow
  }

  predicate TradesAt(c: Candle, p: real) { c.low <= p <= c.high }

  /** A gap is found exactly when no price lies in both outer ranges, and then its zone is a
      proper interval spanned by their facing edges. */
  lemma FvgIsTheGap(before: Candle, middle: Candle, after: Candle)
    requires before.low <= before.high && after.low <= after.high
    ensures DetectFvg(before, middle, after).Some?
       <==> forall p :: !(TradesAt(before, p) && TradesAt(after, p))
    ensures match DetectFvg(before, middle, after)
      case None => true
      case Some(g) =>
        && g.gapLow < g.gapHigh && g.formedAt == middle.openTime
        && (g.direction == Bearish <==> before.low > after.high)
        && (forall p :: g.gapLow < p < g.gapHigh ==> !TradesAt(before, p) && !TradesAt(after, p))
        && Touches(before, g) && Touches(after, g)
  {
    if DetectFvg(before, middle, after).None? {
      var p := Max(before.low, after.low);
      assert TradesAt(before, p) && TradesAt(after, p);
    }
  }

  // ---------------------------------------------------------------- filters

  /** Minutes since midnight, seconds dropped. */
  function MinuteOfDay(t: int): int { t % DAY / MINUTE }

  datatype Window = Window(start: int, end: int)

  predicate HasMinute(w: Window, minute: int) { w.start <= minute < w.end }

  /** The reason texts, one value for each text. */
  datatype FilterReason =
    | InBlockedWindow(window: Window) | OutsideWindows | InProbableWindow(window: Window)
    | AgainstBias(direction: Direction) | WithBias

  function FirstInside(ws: seq<Window>, minute: int): Option<Window> {
    if ws == [] then None else if HasMinute(ws[0], minute) then Some(ws[0]) else FirstInside(ws[1..], minute)
  }

  function TradingWindow(t: int, blocked: seq<Window>, probable: seq<Window>): (bool, FilterReason) {
    var minute := MinuteOfDay(t);
    var inBlocked, inProbable := FirstInside(blocked, minute), FirstInside(probable, minute);
    if inBlocked.Some? then (false, InBlockedWindow(inBlocked.value))
    else if inProbable.Some? then (true, InProbableWindow(inProbable.value))
    else (false, OutsideWindows)
  }

  lemma {:induction false} FirstInsideFinds(ws: seq<Window>, minute: int)
    ensures FirstInside(ws, minute).Some? <==> exists w :: w in ws && HasMinute(w, minute)
    ensures FirstInside(ws, minute).Some? ==>
      exists i :: 0 <= i < |ws| && ws[i] == FirstInside(ws, minute).value && HasMinute(ws[i], minute)
                  && forall j :: 0 <= j < i ==> !HasMinute(ws[j], minute)
  {
    if ws != [] {
      FirstInsideFinds(ws[1..], minute);
      assert ws[0] in ws && forall w :: w in ws <==> w == ws[0] || w in ws[1..];
      if FirstInside(ws, minute).Some? && !HasMinute(ws[0], minute) {
        var i :| 0 <= i < |ws[1..]| && ws[1..][i] == FirstInside(ws[1..], minute).value && HasMinute(ws[1..][i], minute)
                 && forall j :: 0 <= j < i ==> !HasMinute(ws[1..][j], minute);
        assert ws[i + 1] == ws[1..][i];
        forall j | 0 <= j < i + 1 ensures !HasMinute(ws[j], minute) {
          if j > 0 { assert ws[j] == ws[1..][j - 1]; }
        }
      }
    }
  }

  /** Blocked windows win, whatever the order in which the windows are configured. */
  lemma TradingWindowMeaning(t: int, blocked: seq<Window>, probable: seq<Window>)
    ensures TradingWindow(t, blocked, probable).0 <==>
      && (forall w :: w in blocked ==> !HasMinute(w, MinuteOfDay(t)))
      && (exists w :: w in probable && HasMinute(w, MinuteOfDay(t)))
  {
    FirstInsideFinds(blocked, MinuteOfDay(t));
    FirstInsideFinds(probable, MinuteOfDay(t));
  }

  /** In times of day: from the window's first minute to just before its last, seconds and all. */
  lemma HasMinuteIff(w: Window, t: int)
    ensures HasMinute(w, MinuteOfDay(t)) <==> w.start * MINUTE <= t % DAY < w.end * MINUTE
  {
    var x := t % DAY;
    assert x / MINUTE * MINUTE <= x < (x / MINUTE + 1) * MINUTE;
  }

  datatype Bias = BullishBias | BearishBias | NeutralBias

  function HtfBias(baseHigh: real, baseLow: real, price: real): Bias {
    var midpoint := (baseHigh + baseLow) / 2.0;
    if price > midpoint then BullishBias else if price < midpoint then BearishBias else NeutralBias
  }

  function BiasAligned(d: Direction, b: Bias): (bool, FilterReason) {
    if d == Bearish && b == BullishBias then (false, AgainstBias(Bearish))
    else if d == Bullish && b == BearishBias then (false, AgainstBias(Bullish))
    else (true, WithBias)
  }

  /** The filter keeps bearish signals in the half of the base nearer its low, bullish ones in
      the half nearer its high, and both at the middle. */
  lemma BiasMeaning(d: Direction, baseHigh: real, baseLow: real, price: real)
    ensures BiasAligned(d, HtfBias(baseHigh, baseLow, price)).0 <==>
      if d == Bearish then price - baseLow <= baseHigh - price else baseHigh - price <= price - baseLow
  {
  }
}
