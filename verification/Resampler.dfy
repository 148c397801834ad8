/** What data_feed/candle_resampler.py computes, stated by collecting the bars of each
    bucket; the loop over a dict of live candles is in module Aggregator.
 */
module Resampler {
  import opened Basics
  import opened Buckets

  function BucketOfBar(bar: Bar, n: int): int
    requires n >= 1
  {
    BucketStart(bar.time, n)
  }

  /** The distinct buckets of the bars, in order of first appearance. */
  function BucketOrder(bars: seq<Bar>, n: int): seq<int>
    requires n >= 1
  {
    if bars == [] then [] else
    var o := BucketOrder(Front(bars), n);
    var b := BucketOfBar(Last(bars), n);
    if b in o then o else o + [b]
  }

  /** The bars of bucket `b`, in input order. */
  function InBucket(bars: seq<Bar>, n: int, b: int): seq<Bar>
    requires n >= 1
  {
    if bars == [] then [] else
    var rest := InBucket(Front(bars), n, b);
    if BucketOfBar(Last(bars), n) == b then rest + [Last(bars)] else rest
  }

  function MaxHigh(bars: seq<Bar>): real
    requires bars != []
  {
    if |bars| == 1 then bars[0].high else Max(MaxHigh(Front(bars)), Last(bars).high)
  }

  function MinLow(bars: seq<Bar>): real
    requires bars != []
  {
    if |bars| == 1 then bars[0].low else Min(MinLow(Front(bars)), Last(bars).low)
  }

  /** First open, highest high, lowest low, last close, and how many. */
  function CandleOf(inst: string, n: int, b: int, bars: seq<Bar>): Candle
    requires bars != []
  {
    Candle(inst, n, b, bars[0].open, MaxHigh(bars), MinLow(bars), Last(bars).close, |bars|)
  }

  function Resample(inst: string, n: int, bars: seq<Bar>): seq<Candle>
    requires n >= 1
  {
    var o := BucketOrder(bars, n);
    OrderIsNonEmptyBuckets(bars, n);
    seq(|o|, i requires 0 <= i < |o| => CandleOf(inst, n, o[i], InBucket(bars, n, o[i])))
  }

  lemma OrderIsNonEmptyBuckets(bars: seq<Bar>, n: int)
    requires n >= 1
    ensures forall b :: b in BucketOrder(bars, n) <==> InBucket(bars, n, b) != []
  {
  }

  lemma {:induction false} OrderDistinct(bars: seq<Bar>, n: int)
    requires n >= 1
    ensures forall i, j :: 0 <= i < j < |BucketOrder(bars, n)| ==> BucketOrder(bars, n)[i] != BucketOrder(bars, n)[j]
  {
    if bars != [] { OrderDistinct(Front(bars), n); }
  }

  // ---------------------------------------------------------------- one more bar

  function BarCandle(inst: string, n: int, bar: Bar): Candle
    requires n >= 1
  {
    Candle(inst, n, BucketOfBar(bar, n), bar.open, bar.high, bar.low, bar.close, 1)
  }

  function MergeBar(c: Candle, bar: Bar): Candle {
    c.(high := Max(c.high, bar.high), low := Min(c.low, bar.low), close := bar.close,
       tickCount := c.tickCount + 1)
  }

  /** The position of the candle that opens at `b`, or the length when there is none. */
  function FindOpen(cs: seq<Candle>, b: int): (i: nat)
    ensures i <= |cs|
    ensures i < |cs| ==> cs[i].openTime == b
    ensures forall j :: 0 <= j < i ==> cs[j].openTime != b
  {
    if cs == [] then 0 else if cs[0].openTime == b then 0 else 1 + FindOpen(cs[1..], b)
  }

  /** The dict step: merge into the bucket's candle, or open a new one at the end. */
  function Absorb(inst: string, n: int, cs: seq<Candle>, bar: Bar): seq<Candle>
    requires n >= 1
  {
    var i := FindOpen(cs, BucketOfBar(bar, n));
    if i < |cs| then cs[i := MergeBar(cs[i], bar)] else cs + [BarCandle(inst, n, bar)]
  }

  lemma ResampleSnoc(inst: string, n: int, bars: seq<Bar>, bar: Bar)
    requires n >= 1
    ensures Resample(inst, n, bars + [bar]) == Absorb(inst, n, Resample(inst, n, bars), bar)
  {
    var all, b := bars + [bar], BucketOfBar(bar, n);
    assert Front(all) == bars && Last(all) == bar;
    var o, r := BucketOrder(bars, n), Resample(inst, n, bars);
    var r' := Resample(inst, n, all);
    OrderDistinct(bars, n);
    OrderIsNonEmptyBuckets(bars, n);
    OrderIsNonEmptyBuckets(all, n);
    var i := FindOpen(r, b);
    assert i < |r| <==> b in o by {
      if b in o {
        var j :| 0 <= j < |o| && o[j] == b;
        assert r[j].openTime == b;
      }
    }
    forall k | 0 <= k < |r| && k != i ensures r'[k] == r[k] {
      assert r[k].openTime == o[k];
      if i < |r| { assert r[i].openTime == o[i]; }
    }
    if i < |r| {
      assert o[i] == b;
      var bs := InBucket(bars, n, b);
      assert InBucket(all, n, b) == bs + [bar];
      assert Front(bs + [bar]) == bs;
      assert r'[i] == MergeBar(r[i], bar);
    } else {
      assert InBucket(bars, n, b) == [];
      assert InBucket(all, n, b) == [bar];
    }
    assert r' == Absorb(inst, n, r, bar);
  }

  // ---------------------------------------------------------------- well-formedness

  predicate Chronological(bars: seq<Bar>) {
    forall i, j :: 0 <= i < j < |bars| ==> bars[i].time <= bars[j].time
  }

  predicate SameDay(bars: seq<Bar>) {
    forall i, j :: 0 <= i < j < |bars| ==> Midnight(bars[i].time) == Midnight(bars[j].time)
  }

  /** No bar falls into an earlier bucket than one before it. */
  predicate BucketsAscend(bars: seq<Bar>, n: int)
    requires n >= 1
  {
    forall i, j :: 0 <= i < j < |bars| ==> BucketOfBar(bars[i], n) <= BucketOfBar(bars[j], n)
  }

  predicate OpensIncrease(cs: seq<Candle>) {
    forall i, j :: 0 <= i < j < |cs| ==> cs[i].openTime < cs[j].openTime
  }

  lemma ChronologicalBuckets(bars: seq<Bar>, n: int)
    requires n >= 1 && Chronological(bars) && (SeamOk(n) || SameDay(bars))
    ensures BucketsAscend(bars, n)
  {
    forall i, j | 0 <= i < j < |bars| ensures BucketOfBar(bars[i], n) <= BucketOfBar(bars[j], n) {
      if SeamOk(n) {
        MonotoneAcrossDays(bars[i].time, bars[j].time, n);
      } else {
        MonotoneWithinDay(bars[i].time, bars[j].time, n);
      }
    }
  }

  /** A bar of the last candle's bucket or a later one keeps the open times increasing. */
  lemma AbsorbAscending(inst: string, n: int, cs: seq<Candle>, bar: Bar)
    requires n >= 1 && OpensIncrease(cs) && (cs != [] ==> Last(cs).openTime <= BucketOfBar(bar, n))
    ensures var r := Absorb(inst, n, cs, bar);
      r != [] && OpensIncrease(r) && Last(r).openTime == BucketOfBar(bar, n)
  {
    assert cs != [] ==> forall i :: 0 <= i < |cs| - 1 ==> cs[i].openTime < Last(cs).openTime;
  }

  lemma {:induction false} LastBucketIsLast(inst: string, n: int, bars: seq<Bar>)
    requires n >= 1 && BucketsAscend(bars, n) && bars != []
    ensures Resample(inst, n, bars) != []
    ensures OpensIncrease(Resample(inst, n, bars))
    ensures Last(Resample(inst, n, bars)).openTime == BucketOfBar(Last(bars), n)
  {
    var front, last := Front(bars), Last(bars);
    assert bars == front + [last];
    ResampleSnoc(inst, n, front, last);
    if front == [] {
      assert Resample(inst, n, front) == [];
    } else {
      LastBucketIsLast(inst, n, front);
    }
    AbsorbAscending(inst, n, Resample(inst, n, front), last);
  }

  function TotalCount(cs: seq<Candle>): nat {
    if cs == [] then 0 else TotalCount(Front(cs)) + Last(cs).tickCount
  }

  lemma TotalCountUpdate(cs: seq<Candle>, i: nat, c: Candle)
    requires i < |cs|
    ensures TotalCount(cs[i := c]) == TotalCount(cs) - cs[i].tickCount + c.tickCount
  {
    if i < |cs| - 1 {
      assert Front(cs[i := c]) == Front(cs)[i := c];
      TotalCountUpdate(Front(cs), i, c);
    } else {
      assert Front(cs[i := c]) == Front(cs);
    }
  }

  /** Every bar is counted in exactly one candle, whatever the input order. */
  lemma {:induction false} CountsConserved(inst: string, n: int, bars: seq<Bar>)
    requires n >= 1
    ensures TotalCount(Resample(inst, n, bars)) == |bars|
  {
    if bars != [] {
      var r := Resample(inst, n, Front(bars));
      assert bars == Front(bars) + [Last(bars)];
      ResampleSnoc(inst, n, Front(bars), Last(bars));
      CountsConserved(inst, n, Front(bars));
      var i := FindOpen(r, BucketOfBar(Last(bars), n));
      if i < |r| {
        TotalCountUpdate(r, i, MergeBar(r[i], Last(bars)));
      } else {
        assert Front(r + [BarCandle(inst, n, Last(bars))]) == r;
      }
    }
  }

  /** Chronological bars give candles in strictly increasing time order. */
  lemma ResampleWellFormed(inst: string, n: int, bars: seq<Bar>)
    requires n >= 1 && Chronological(bars) && (SeamOk(n) || SameDay(bars))
    ensures OpensIncrease(Resample(inst, n, bars))
    ensures TotalCount(Resample(inst, n, bars)) == |bars|
  {
    ChronologicalBuckets(bars, n);
    CountsConserved(inst, n, bars);
    if bars != [] { LastBucketIsLast(inst, n, bars); }
  }

  /** Without the seam condition it fails: two seven-minute bars across midnight. */
  lemma SeamConditionNeeded()
    ensures exists bars :: Chronological(bars) && !OpensIncrease(Resample("", 7, bars))
  {
    var x := Bar(DAY - 1, 1.0, 1.0, 1.0, 1.0, 0.0);
    var y := Bar(DAY, 1.0, 1.0, 1.0, 1.0, 0.0);
    LastBucketOfDay(0, 7);
    FirstBucketOfDay(1, 7);
    ResampleSnoc("", 7, [], x);
    ResampleSnoc("", 7, [x], y);
    assert [] + [x] == [x] && [x] + [y] == [x, y];
    var r := Resample("", 7, [x, y]);
    assert r == [BarCandle("", 7, x), BarCandle("", 7, y)];
    assert r[0].openTime > r[1].openTime;
    assert Chronological([x, y]);
  }

  // ---------------------------------------------------------------- ascending input

  /** The streaming step: only the last candle can still change. */
  function AppendOrMerge(inst: string, n: int, cs: seq<Candle>, bar: Bar): seq<Candle>
    requires n >= 1
  {
    if cs != [] && Last(cs).openTime == BucketOfBar(bar, n)
    then Front(cs) + [MergeBar(Last(cs), bar)]
    else cs + [BarCandle(inst, n, bar)]
  }

  lemma AscendingSnoc(inst: string, n: int, bars: seq<Bar>, bar: Bar)
    requires n >= 1 && BucketsAscend(bars + [bar], n)
    ensures Resample(inst, n, bars + [bar]) == AppendOrMerge(inst, n, Resample(inst, n, bars), bar)
  {
    var all := bars + [bar];
    ResampleSnoc(inst, n, bars, bar);
    if bars != [] {
      assert BucketsAscend(bars, n) by {
        forall i, j | 0 <= i < j < |bars| ensures BucketOfBar(bars[i], n) <= BucketOfBar(bars[j], n) {
          assert all[i] == bars[i] && all[j] == bars[j];
        }
      }
      LastBucketIsLast(inst, n, bars);
      assert all[|bars| - 1] == Last(bars) && all[|bars|] == bar;
      assert BucketOfBar(all[|bars| - 1], n) <= BucketOfBar(all[|bars|], n);
      var r := Resample(inst, n, bars);
      var k := FindOpen(r, BucketOfBar(bar, n));
      assert k >= |r| - 1;
    } else {
      assert Resample(inst, n, bars) == [];
    }
  }

  // ---------------------------------------------------------------- composition

  predicate SameOhlc(a: Candle, b: Candle) {
    && a.instrument == b.instrument && a.timeframe == b.timeframe && a.openTime == b.openTime
    && a.open == b.open && a.high == b.high && a.low == b.low && a.close == b.close
  }

  predicate SameOhlcs(a: seq<Candle>, b: seq<Candle>) {
    |a| == |b| && forall i :: 0 <= i < |a| ==> SameOhlc(a[i], b[i])
  }

  function AsBar(c: Candle): Bar { Bar(c.openTime, c.open, c.high, c.low, c.close, 0.0) }

  function AsBars(cs: seq<Candle>): (bars: seq<Bar>)
    ensures |bars| == |cs|
    ensures forall i :: 0 <= i < |cs| ==> bars[i] == AsBar(cs[i])
  {
    seq(|cs|, i requires 0 <= i < |cs| => AsBar(cs[i]))
  }

  lemma AbsorbCongruent(inst: string, m: int, a: seq<Candle>, b: seq<Candle>, x: Bar, y: Bar)
    requires m >= 1 && SameOhlcs(a, b)
    requires BucketOfBar(x, m) == BucketOfBar(y, m)
    requires x.open == y.open && x.high == y.high && x.low == y.low && x.close == y.close
    ensures SameOhlcs(Absorb(inst, m, a, x), Absorb(inst, m, b, y))
  {
    var t := BucketOfBar(x, m);
    var i, j := FindOpen(a, t), FindOpen(b, t);
    assert forall k :: 0 <= k < |a| ==> a[k].openTime == b[k].openTime;
    assert i == j;
  }

  /** Merging a bar into a finer candle before or after absorbing it is the same. */
  lemma AbsorbMerged(inst: string, m: int, cs: seq<Candle>, c: Candle, bar: Bar)
    requires m >= 1 && BucketStart(c.openTime, m) == BucketOfBar(bar, m)
    ensures SameOhlcs(Absorb(inst, m, cs, AsBar(MergeBar(c, bar))),
                      Absorb(inst, m, Absorb(inst, m, cs, AsBar(c)), bar))
  {
    var b := BucketOfBar(bar, m);
    var once := Absorb(inst, m, cs, AsBar(c));
    var i, j := FindOpen(cs, b), FindOpen(once, b);
    assert i < |once| && once[i].openTime == b;
    assert forall k :: 0 <= k < i ==> once[k] == cs[k];
    assert i == j;
  }

  /** One more bar, appended to the finer candles `r` or merged into the last of them. */
  lemma ComposeStep(inst: string, n: int, m: int, front: seq<Bar>, bar: Bar, r: seq<Candle>)
    requires n >= 1 && m >= 1 && r == Resample(inst, n, front)
    requires BucketStart(BucketOfBar(bar, n), m) == BucketOfBar(bar, m)
    requires SameOhlcs(Resample(inst, m, AsBars(r)), Resample(inst, m, front))
    ensures SameOhlcs(Resample(inst, m, AsBars(AppendOrMerge(inst, n, r, bar))),
                      Absorb(inst, m, Resample(inst, m, front), bar))
  {
    if r != [] && Last(r).openTime == BucketOfBar(bar, n) {
      assert r == Front(r) + [Last(r)];
      ComposeMergeStep(inst, n, m, front, bar, Front(r), Last(r));
    } else {
      ComposeAppendStep(inst, n, m, front, bar, r);
    }
  }

  /** Resampling to N minutes and then to M gives the M-minute candles directly. */
  lemma {:induction false} ResampleComposesAscending(inst: string, n: int, m: int, bars: seq<Bar>)
    requires n >= 1 && m >= 1 && 15 % n == 0 && m % n == 0 && BucketsAscend(bars, n)
    ensures SameOhlcs(Resample(inst, m, AsBars(Resample(inst, n, bars))), Resample(inst, m, bars))
  {
    if bars == [] {
      assert AsBars(Resample(inst, n, bars)) == [];
    } else {
      var front, bar := Front(bars), Last(bars);
      assert bars == front + [bar];
      ResampleComposesAscending(inst, n, m, front);
      assert BucketStart(BucketOfBar(bar, n), m) == BucketOfBar(bar, m) by { BucketsNest(bar.time, n, m); }
      AscendingSnoc(inst, n, front, bar);
      ResampleSnoc(inst, m, front, bar);
      ComposeStep(inst, n, m, front, bar, Resample(inst, n, front));
    }
  }

  lemma ComposeAppendStep(inst: string, n: int, m: int, front: seq<Bar>, bar: Bar, r: seq<Candle>)
    requires n >= 1 && m >= 1 && BucketStart(BucketOfBar(bar, n), m) == BucketOfBar(bar, m)
    requires SameOhlcs(Resample(inst, m, AsBars(r)), Resample(inst, m, front))
    ensures SameOhlcs(Resample(inst, m, AsBars(r + [BarCandle(inst, n, bar)])), Absorb(inst, m, Resample(inst, m, front), bar))
  {
    assert AsBars(r + [BarCandle(inst, n, bar)]) == AsBars(r) + [AsBar(BarCandle(inst, n, bar))];
    ResampleSnoc(inst, m, AsBars(r), AsBar(BarCandle(inst, n, bar)));
    AbsorbCongruent(inst, m, Resample(inst, m, AsBars(r)), Resample(inst, m, front), AsBar(BarCandle(inst, n, bar)), bar);
  }

  lemma ComposeMergeStep(inst: string, n: int, m: int, front: seq<Bar>, bar: Bar, f: seq<Candle>, l: Candle)
    requires n >= 1 && m >= 1 && BucketStart(l.openTime, m) == BucketOfBar(bar, m)
    requires Resample(inst, n, front) == f + [l]
    requires SameOhlcs(Resample(inst, m, AsBars(f + [l])), Resample(inst, m, front))
    ensures SameOhlcs(Resample(inst, m, AsBars(f + [MergeBar(l, bar)])),
                      Absorb(inst, m, Resample(inst, m, front), bar))
  {
    var base := Resample(inst, m, AsBars(f));
    assert AsBars(f + [l]) == AsBars(f) + [AsBar(l)];
    assert AsBars(f + [MergeBar(l, bar)]) == AsBars(f) + [AsBar(MergeBar(l, bar))];
    ResampleSnoc(inst, m, AsBars(f), AsBar(l));
    ResampleSnoc(inst, m, AsBars(f), AsBar(MergeBar(l, bar)));
    AbsorbMerged(inst, m, base, l, bar);
    AbsorbCongruent(inst, m, Absorb(inst, m, base, AsBar(l)), Resample(inst, m, front), bar, bar);
  }

  lemma ResampleComposes(inst: string, n: int, m: int, bars: seq<Bar>)
    requires n >= 1 && m >= 1 && 15 % n == 0 && m % n == 0 && Chronological(bars)
    ensures SameOhlcs(Resample(inst, m, AsBars(Resample(inst, n, bars))), Resample(inst, m, bars))
  {
    DivisorsOf15(n);
    ChronologicalBuckets(bars, n);
    ResampleComposesAscending(inst, n, m, bars);
  }

  lemma DivisorsOf15(n: int)
    requires n >= 1 && 15 % n == 0
    ensures SeamOk(n)
  {
    assert n == 1 || n == 3 || n == 5 || n == 15 by {
      var q := 15 / n;
      assert n * q == 15;
      if n > 15 {
        MulMonotone(1, q, n);
        assert false;
      }
    }
  }

  // ---------------------------------------------------------------- what a candle is

  lemma {:induction false} BucketMembers(bars: seq<Bar>, n: int, b: int)
    requires n >= 1
    ensures forall i :: 0 <= i < |bars| && BucketOfBar(bars[i], n) == b ==> bars[i] in InBucket(bars, n, b)
    ensures forall x :: x in InBucket(bars, n, b) ==> exists i :: 0 <= i < |bars| && bars[i] == x && BucketOfBar(bars[i], n) == b
  {
    if bars != [] {
      BucketMembers(Front(bars), n, b);
      var last := |bars| - 1;
      forall x | x in InBucket(bars, n, b)
        ensures exists i :: 0 <= i < |bars| && bars[i] == x && BucketOfBar(bars[i], n) == b
      {
        if x in InBucket(Front(bars), n, b) {
          var i :| 0 <= i < last && Front(bars)[i] == x && BucketOfBar(Front(bars)[i], n) == b;
          assert bars[i] == x;
        } else {
          assert bars[last] == x;
        }
      }
      forall i | 0 <= i < |bars| && BucketOfBar(bars[i], n) == b ensures bars[i] in InBucket(bars, n, b) {
        if i < last { assert Front(bars)[i] == bars[i]; }
      }
    }
  }

  lemma {:induction false} Extremes(bars: seq<Bar>)
    requires bars != []
    ensures forall x :: x in bars ==> MinLow(bars) <= x.low && x.high <= MaxHigh(bars)
    ensures exists x :: x in bars && x.low == MinLow(bars)
    ensures exists x :: x in bars && x.high == MaxHigh(bars)
  {
    if |bars| == 1 {
      assert bars[0] in bars;
    } else {
      var front, last := Front(bars), Last(bars);
      assert bars == front + [last];
      Extremes(front);
      assert last in bars && forall x :: x in bars <==> x in front || x == last;
      var lo :| lo in front && lo.low == MinLow(front);
      var hi :| hi in front && hi.high == MaxHigh(front);
      assert lo in bars && hi in bars;
    }
  }

  predicate IsFirstIn(bars: seq<Bar>, n: int, b: int, i: int)
    requires n >= 1
  {
    0 <= i < |bars| && BucketStart(bars[i].time, n) == b && forall j :: 0 <= j < i ==> BucketStart(bars[j].time, n) != b
  }

  predicate IsLastIn(bars: seq<Bar>, n: int, b: int, i: int)
    requires n >= 1
  {
    0 <= i < |bars| && BucketStart(bars[i].time, n) == b && forall j :: i < j < |bars| ==> BucketStart(bars[j].time, n) != b
  }

  lemma {:induction false} FirstInBucket(bars: seq<Bar>, n: int, b: int)
    requires n >= 1 && InBucket(bars, n, b) != []
    ensures exists i :: IsFirstIn(bars, n, b, i) && InBucket(bars, n, b)[0] == bars[i]
  {
    var front, last := Front(bars), |bars| - 1;
    assert forall j :: 0 <= j < last ==> front[j] == bars[j];
    if InBucket(front, n, b) != [] {
      FirstInBucket(front, n, b);
      var i :| IsFirstIn(front, n, b, i) && InBucket(front, n, b)[0] == front[i];
      assert IsFirstIn(bars, n, b, i);
    } else {
      BucketMembers(front, n, b);
      assert forall j :: 0 <= j < last ==> BucketOfBar(front[j], n) != b;
      assert IsFirstIn(bars, n, b, last);
    }
  }

  lemma {:induction false} LastInBucket(bars: seq<Bar>, n: int, b: int)
    requires n >= 1 && InBucket(bars, n, b) != []
    ensures exists i :: IsLastIn(bars, n, b, i) && Last(InBucket(bars, n, b)) == bars[i]
  {
    var front, last := Front(bars), |bars| - 1;
    assert forall j :: 0 <= j < last ==> front[j] == bars[j];
    if BucketOfBar(bars[last], n) == b {
      assert IsLastIn(bars, n, b, last);
    } else {
      LastInBucket(front, n, b);
      var i :| IsLastIn(front, n, b, i) && Last(InBucket(front, n, b)) == front[i];
      assert IsLastIn(bars, n, b, i);
    }
  }

  ghost function IndicesIn(bars: seq<Bar>, n: int, b: int): set<int>
    requires n >= 1
  {
    set i | 0 <= i < |bars| && BucketStart(bars[i].time, n) == b
  }

  lemma {:induction false} CountInBucket(bars: seq<Bar>, n: int, b: int)
    requires n >= 1
    ensures |InBucket(bars, n, b)| == |IndicesIn(bars, n, b)|
  {
    if bars == [] {
      assert IndicesIn(bars, n, b) == {};
    } else {
      var front, last := Front(bars), |bars| - 1;
      CountInBucket(front, n, b);
      assert forall j :: 0 <= j < last ==> front[j] == bars[j];
      assert IndicesIn(bars, n, b)
          == IndicesIn(front, n, b) + if BucketStart(bars[last].time, n) == b then {last} else {};
    }
  }

  /** The candle of a bucket: opened by its first bar, closed by its last, as high as its highest and
      as low as its lowest, with one count for each. */
  ghost predicate IsCandleOf(c: Candle, inst: string, n: int, bars: seq<Bar>)
    requires n >= 1
  {
    && c.instrument == inst && c.timeframe == n && c.tickCount == |IndicesIn(bars, n, c.openTime)|
    && (exists i :: IsFirstIn(bars, n, c.openTime, i) && c.open == bars[i].open)
    && (exists i :: IsLastIn(bars, n, c.openTime, i) && c.close == bars[i].close)
    && (forall i :: 0 <= i < |bars| && BucketStart(bars[i].time, n) == c.openTime ==> c.low <= bars[i].low && bars[i].high <= c.high)
    && (exists i :: 0 <= i < |bars| && BucketStart(bars[i].time, n) == c.openTime && bars[i].high == c.high)
    && (exists i :: 0 <= i < |bars| && BucketStart(bars[i].time, n) == c.openTime && bars[i].low == c.low)
  }

  lemma {:induction false} RangeOfBucket(bars: seq<Bar>, n: int, b: int)
    requires n >= 1 && InBucket(bars, n, b) != []
    ensures var bs := InBucket(bars, n, b);
      && (forall i :: 0 <= i < |bars| && BucketStart(bars[i].time, n) == b ==> MinLow(bs) <= bars[i].low && bars[i].high <= MaxHigh(bs))
      && (exists i :: 0 <= i < |bars| && BucketStart(bars[i].time, n) == b && bars[i].high == MaxHigh(bs))
      && (exists i :: 0 <= i < |bars| && BucketStart(bars[i].time, n) == b && bars[i].low == MinLow(bs))
  {
    var bs := InBucket(bars, n, b);
    BucketMembers(bars, n, b);
    Extremes(bs);
    forall i | 0 <= i < |bars| && BucketStart(bars[i].time, n) == b ensures MinLow(bs) <= bars[i].low && bars[i].high <= MaxHigh(bs) {
      assert BucketOfBar(bars[i], n) == b && bars[i] in bs;
    }
    var hi :| hi in bs && hi.high == MaxHigh(bs);
    var lo :| lo in bs && lo.low == MinLow(bs);
    var i :| 0 <= i < |bars| && bars[i] == hi && BucketOfBar(bars[i], n) == b;
    var j :| 0 <= j < |bars| && bars[j] == lo && BucketOfBar(bars[j], n) == b;
  }

  lemma BucketCandle(inst: string, n: int, bars: seq<Bar>, b: int)
    requires n >= 1 && InBucket(bars, n, b) != []
    ensures IsCandleOf(CandleOf(inst, n, b, InBucket(bars, n, b)), inst, n, bars)
  {
    FirstInBucket(bars, n, b);
    LastInBucket(bars, n, b);
    CountInBucket(bars, n, b);
    RangeOfBucket(bars, n, b);
  }

  predicate OpensAt(cs: seq<Candle>, time: int) { exists k :: 0 <= k < |cs| && cs[k].openTime == time }

  lemma HasBucket(inst: string, n: int, bars: seq<Bar>, i: nat)
    requires n >= 1 && i < |bars|
    ensures OpensAt(Resample(inst, n, bars), BucketStart(bars[i].time, n))
  {
    var b := BucketOfBar(bars[i], n);
    BucketMembers(bars, n, b);
    OrderIsNonEmptyBuckets(bars, n);
    var k :| 0 <= k < |BucketOrder(bars, n)| && BucketOrder(bars, n)[k] == b;
    assert Resample(inst, n, bars)[k].openTime == b;
  }

  /** Resampling gives one candle for every bucket that holds a bar, and each is its bucket's. */
  lemma ResampledCandles(inst: string, n: int, bars: seq<Bar>)
    requires n >= 1
    ensures forall k :: 0 <= k < |Resample(inst, n, bars)| ==> IsCandleOf(Resample(inst, n, bars)[k], inst, n, bars)
    ensures forall i :: 0 <= i < |bars| ==> OpensAt(Resample(inst, n, bars), BucketStart(bars[i].time, n))
  {
    OrderIsNonEmptyBuckets(bars, n);
    forall k | 0 <= k < |Resample(inst, n, bars)| ensures IsCandleOf(Resample(inst, n, bars)[k], inst, n, bars) {
      BucketCandle(inst, n, bars, BucketOrder(bars, n)[k]);
    }
    forall i | 0 <= i < |bars| ensures OpensAt(Resample(inst, n, bars), BucketStart(bars[i].time, n)) {
      HasBucket(inst, n, bars, i);
    }
  }

  // ---------------------------------------------------------------- cut histories

  /** The first candle of a batch is that of the first bar. */
  lemma {:induction false} FirstBucketIsFirst(inst: string, n: int, bars: seq<Bar>)
    requires n >= 1 && bars != []
    ensures Resample(inst, n, bars) != [] && Resample(inst, n, bars)[0].openTime == BucketOfBar(bars[0], n)
  {
    if |bars| > 1 {
      FirstBucketIsFirst(inst, n, Front(bars));
    } else {
      assert BucketOrder(Front(bars), n) == [];
    }
  }

  lemma {:induction false} InBucketConcat(a: seq<Bar>, b: seq<Bar>, n: int, bucket: int)
    requires n >= 1
    ensures InBucket(a + b, n, bucket) == InBucket(a, n, bucket) + InBucket(b, n, bucket)
  {
    if b == [] {
      assert a + b == a;
    } else {
      assert Front(a + b) == a + Front(b);
      InBucketConcat(a, Front(b), n, bucket);
    }
  }

  lemma AppendOrMergeAfter(inst: string, n: int, a: seq<Candle>, b: seq<Candle>, bar: Bar)
    requires n >= 1 && (b != [] || (a != [] && Last(a).openTime != BucketOfBar(bar, n)))
    ensures AppendOrMerge(inst, n, a + b, bar) == a + AppendOrMerge(inst, n, b, bar)
  {
    if b != [] {
      assert Last(a + b) == Last(b) && Front(a + b) == a + Front(b);
    } else {
      assert a + b == a;
    }
  }

  lemma AscendingParts(a: seq<Bar>, b: seq<Bar>, n: int)
    requires n >= 1 && BucketsAscend(a + b, n)
    ensures BucketsAscend(a, n) && BucketsAscend(b, n)
    ensures b != [] ==> BucketsAscend(a + Front(b), n) && a + b == a + Front(b) + [Last(b)]
  {
    assert forall i :: 0 <= i < |a| ==> (a + b)[i] == a[i];
    assert forall i :: 0 <= i < |b| ==> (a + b)[|a| + i] == b[i];
    assert b != [] ==> forall i :: 0 <= i < |a + b| - 1 ==> (a + Front(b))[i] == (a + b)[i];
  }

  /** Rows cut between two buckets are resampled on either side of the cut. */
  lemma {:induction false} ResampleConcat(inst: string, n: int, a: seq<Bar>, b: seq<Bar>)
    requires n >= 1 && BucketsAscend(a + b, n) && a != [] && b != [] && BucketOfBar(Last(a), n) < BucketOfBar(b[0], n)
    ensures Resample(inst, n, a + b) == Resample(inst, n, a) + Resample(inst, n, b)
  {
    var f, x := Front(b), Last(b);
    assert b == f + [x];
    AscendingParts(a, b, n);
    LastBucketIsLast(inst, n, a);
    AscendingSnoc(inst, n, a + f, x);
    AscendingSnoc(inst, n, f, x);
    if f == [] {
      assert a + f == a && Resample(inst, n, f) == [];
    } else {
      ResampleConcat(inst, n, a, f);
      LastBucketIsLast(inst, n, f);
    }
    AppendOrMergeAfter(inst, n, Resample(inst, n, a), Resample(inst, n, f), x);
  }

  lemma CutInsideBucket(inst: string, n: int, dropped: seq<Bar>, kept: seq<Bar>, c: Candle)
    requires n >= 1 && dropped != [] && kept != [] && BucketOfBar(Last(dropped), n) == BucketOfBar(kept[0], n)
    requires c in Resample(inst, n, dropped + kept) && c.openTime == BucketOfBar(kept[0], n)
    ensures c.tickCount > |InBucket(kept, n, c.openTime)|
  {
    OrderIsNonEmptyBuckets(dropped, n);
    assert BucketOfBar(Last(dropped), n) in BucketOrder(dropped, n);
    InBucketConcat(dropped, kept, n, c.openTime);
  }

  /** The first candle of a cut history is one of the whole history exactly when the cut falls on
      a boundary of its timeframe. */
  lemma CutHistoryIff(inst: string, n: int, dropped: seq<Bar>, kept: seq<Bar>)
    requires n >= 1 && BucketsAscend(dropped + kept, n) && dropped != [] && kept != []
    ensures Resample(inst, n, kept) != []
    ensures Resample(inst, n, kept)[0] in Resample(inst, n, dropped + kept) <==>
      BucketOfBar(Last(dropped), n) < BucketOfBar(kept[0], n)
  {
    FirstBucketIsFirst(inst, n, kept);
    var first := Resample(inst, n, kept)[0];
    assert (dropped + kept)[|dropped| - 1] == Last(dropped) && (dropped + kept)[|dropped|] == kept[0];
    if BucketOfBar(Last(dropped), n) < BucketOfBar(kept[0], n) {
      ResampleConcat(inst, n, dropped, kept);
      assert (Resample(inst, n, dropped) + Resample(inst, n, kept))[|Resample(inst, n, dropped)|] == first;
    } else if first in Resample(inst, n, dropped + kept) {
      CutInsideBucket(inst, n, dropped, kept, first);
      assert false;
    }
  }
}
