/** data_feed/candle_aggregator.py and the loop of data_feed/candle_resampler.py: live
    candle objects updated in place, one aggregator per (instrument, timeframe).

    First the specification on values and what it means for whole tick streams, then the
    classes, each proved against it.
 */
module Aggregator {
  import opened Basics
  import opened Buckets
  import opened Resampler

  // ---------------------------------------------------------------- specification

  /** What an aggregator holds: the candle in progress and what it has handed out so far. */
  datatype AggState = AggState(current: Option<Candle>, emitted: seq<Candle>)

  function UpdateCandle(c: Candle, price: real): Candle {
    c.(high := Max(c.high, price), low := Min(c.low, price), close := price, tickCount := c.tickCount + 1)
  }

  function TickCandle(inst: string, n: int, t: Tick): Candle
    requires n >= 1
  {
    Candle(inst, n, BucketStart(t.time, n), t.price, t.price, t.price, t.price, 1)
  }

  function AfterTick(inst: string, n: int, s: AggState, t: Tick): AggState
    requires n >= 1
  {
    var b := BucketStart(t.time, n);
    if s.current.None? then s.(current := Some(TickCandle(inst, n, t)))
    else if b == s.current.value.openTime then s.(current := Some(UpdateCandle(s.current.value, t.price)))
    else if b > s.current.value.openTime then
      AggState(Some(TickCandle(inst, n, t)), s.emitted + [s.current.value])
    else s
  }

  function AfterTicks(inst: string, n: int, s: AggState, ticks: seq<Tick>): AggState
    requires n >= 1
  {
    if ticks == [] then s else AfterTick(inst, n, AfterTicks(inst, n, s, Front(ticks)), Last(ticks))
  }

  function AfterBootstrap(s: AggState, candles: seq<Candle>): AggState {
    if candles == [] then s else AggState(Some(Last(candles)), s.emitted + Front(candles))
  }

  // ---------------------------------------------------------------- streams against batches

  function TickBar(t: Tick): Bar { Bar(t.time, t.price, t.price, t.price, t.price, 0.0) }

  /** A tick is on time unless some history bar or earlier tick lies in a later bucket. */
  predicate OnTime(history: seq<Bar>, earlier: seq<Tick>, t: Tick, n: int)
    requires n >= 1
  {
    && (forall i :: 0 <= i < |history| ==> BucketOfBar(history[i], n) <= BucketStart(t.time, n))
    && (forall i :: 0 <= i < |earlier| ==> BucketStart(earlier[i].time, n) <= BucketStart(t.time, n))
  }

  /** The on-time ticks as one-point bars: exactly the late ones are missing. */
  function Accepted(history: seq<Bar>, ticks: seq<Tick>, n: int): seq<Bar>
    requires n >= 1
  {
    if ticks == [] then [] else
    var rest := Accepted(history, Front(ticks), n);
    if OnTime(history, Front(ticks), Last(ticks), n) then rest + [TickBar(Last(ticks))] else rest
  }

  /** All candles, closed and in progress, are the batch of `bars` after `before`. */
  ghost predicate IsBatchOf(inst: string, n: int, s: AggState, before: seq<Candle>, bars: seq<Bar>)
    requires n >= 1
  {
    && BucketsAscend(bars, n)
    && s == AfterBootstrap(AggState(None, before), Resample(inst, n, bars))
  }

  /** The newest bucket bounds every bar and every tick, late or not. */
  ghost predicate Newest(n: int, bars: seq<Bar>, ticks: seq<Tick>)
    requires n >= 1
  {
    && (bars == [] ==> ticks == [])
    && (forall i :: 0 <= i < |bars| ==> BucketOfBar(bars[i], n) <= BucketOfBar(Last(bars), n))
    && (forall i :: 0 <= i < |ticks| ==> BucketStart(ticks[i].time, n) <= BucketOfBar(Last(bars), n))
  }

  lemma TickOnTime(inst: string, n: int, s: AggState, before: seq<Candle>, bars: seq<Bar>, t: Tick)
    requires n >= 1 && IsBatchOf(inst, n, s, before, bars)
    requires bars != [] ==> BucketOfBar(Last(bars), n) <= BucketStart(t.time, n)
    ensures IsBatchOf(inst, n, AfterTick(inst, n, s, t), before, bars + [TickBar(t)])
  {
    var all := bars + [TickBar(t)];
    AscendingSnoc(inst, n, bars, TickBar(t));
    var r := Resample(inst, n, bars);
    if bars == [] {
      assert r == [];
      assert Resample(inst, n, all) == [TickCandle(inst, n, t)];
    } else {
      LastBucketIsLast(inst, n, bars);
      if Last(r).openTime == BucketStart(t.time, n) {
        assert MergeBar(Last(r), TickBar(t)) == UpdateCandle(Last(r), t.price);
      } else {
        assert Front(r) + [Last(r)] == r;
        assert Front(r + [TickCandle(inst, n, t)]) == r;
        assert before + Front(r) + [Last(r)] == before + r;
      }
    }
  }

  /** The newest accepted bar is a history bar or an earlier tick. */
  lemma {:induction false} NewestIsSeen(n: int, h: seq<Bar>, ticks: seq<Tick>)
    requires n >= 1
    ensures var bars := h + Accepted(h, ticks, n);
            bars != [] ==>
              || (h != [] && Last(bars) == Last(h))
              || (exists i :: 0 <= i < |ticks| && Last(bars) == TickBar(ticks[i]))
  {
    var bars := h + Accepted(h, ticks, n);
    if ticks == [] {
      assert bars == h;
    } else if OnTime(h, Front(ticks), Last(ticks), n) {
      assert Last(bars) == TickBar(ticks[|ticks| - 1]);
    } else {
      NewestIsSeen(n, h, Front(ticks));
      if bars != [] && !(h != [] && Last(bars) == Last(h)) {
        var i :| 0 <= i < |ticks| - 1 && Last(bars) == TickBar(Front(ticks)[i]);
        assert ticks[i] == Front(ticks)[i];
      }
    }
  }

  /** A late tick lies before the bucket in progress. */
  lemma LateTick(n: int, h: seq<Bar>, earlier: seq<Tick>, t: Tick)
    requires n >= 1 && !OnTime(h, earlier, t, n)
    requires Newest(n, h + Accepted(h, earlier, n), earlier)
    ensures var bars := h + Accepted(h, earlier, n);
            bars != [] && BucketStart(t.time, n) < BucketOfBar(Last(bars), n)
  {
    var bars := h + Accepted(h, earlier, n);
    if exists i :: 0 <= i < |h| && BucketOfBar(h[i], n) > BucketStart(t.time, n) {
      var i :| 0 <= i < |h| && BucketOfBar(h[i], n) > BucketStart(t.time, n);
      assert bars[i] == h[i];
    }
  }

  lemma OnTimeTick(n: int, h: seq<Bar>, earlier: seq<Tick>, t: Tick)
    requires n >= 1 && OnTime(h, earlier, t, n)
    ensures var bars := h + Accepted(h, earlier, n);
            bars != [] ==> BucketOfBar(Last(bars), n) <= BucketStart(t.time, n)
  {
    NewestIsSeen(n, h, earlier);
  }

  lemma NewestGrows(n: int, bars: seq<Bar>, ticks: seq<Tick>, t: Tick)
    requires n >= 1 && Newest(n, bars, ticks)
    requires bars != [] ==> BucketOfBar(Last(bars), n) <= BucketStart(t.time, n)
    ensures Newest(n, bars + [TickBar(t)], ticks + [t])
  {
  }

  /** Bars and state after history `h` and `ticks`, for a stream that starts after `before`. */
  ghost function StateAfter(inst: string, n: int, before: seq<Candle>, h: seq<Bar>, ticks: seq<Tick>): AggState
    requires n >= 1
  {
    AfterTicks(inst, n, AfterBootstrap(AggState(None, before), Resample(inst, n, h)), ticks)
  }

  lemma StateMore(inst: string, n: int, before: seq<Candle>, h: seq<Bar>, earlier: seq<Tick>, t: Tick)
    requires n >= 1
    ensures StateAfter(inst, n, before, h, earlier + [t]) == AfterTick(inst, n, StateAfter(inst, n, before, h, earlier), t)
    ensures h + Accepted(h, earlier + [t], n) ==
      h + Accepted(h, earlier, n) + if OnTime(h, earlier, t, n) then [TickBar(t)] else []
  {
    assert Front(earlier + [t]) == earlier;
  }

  /** A late tick leaves the state alone. */
  lemma LateTickIgnored(inst: string, n: int, s: AggState, before: seq<Candle>, h: seq<Bar>, earlier: seq<Tick>, t: Tick)
    requires n >= 1 && !OnTime(h, earlier, t, n)
    requires IsBatchOf(inst, n, s, before, h + Accepted(h, earlier, n))
    requires Newest(n, h + Accepted(h, earlier, n), earlier)
    ensures AfterTick(inst, n, s, t) == s && Newest(n, h + Accepted(h, earlier, n), earlier + [t])
  {
    LateTick(n, h, earlier, t);
    LastBucketIsLast(inst, n, h + Accepted(h, earlier, n));
  }

  /** The invariant of a whole stream: history `h` first, then any ticks. */
  lemma {:induction false} StreamInvariant(inst: string, n: int, before: seq<Candle>, h: seq<Bar>, ticks: seq<Tick>)
    requires n >= 1 && BucketsAscend(h, n)
    ensures IsBatchOf(inst, n, StateAfter(inst, n, before, h, ticks), before, h + Accepted(h, ticks, n))
    ensures Newest(n, h + Accepted(h, ticks, n), ticks)
  {
    if ticks == [] {
      assert h + Accepted(h, ticks, n) == h;
    } else {
      var earlier, t := Front(ticks), Last(ticks);
      var s, bars := StateAfter(inst, n, before, h, earlier), h + Accepted(h, earlier, n);
      assert ticks == earlier + [t];
      StreamInvariant(inst, n, before, h, earlier);
      StateMore(inst, n, before, h, earlier, t);
      if OnTime(h, earlier, t, n) {
        OnTimeTick(n, h, earlier, t);
        TickOnTime(inst, n, s, before, bars, t);
        NewestGrows(n, bars, earlier, t);
      } else {
        LateTickIgnored(inst, n, s, before, h, earlier, t);
        assert h + Accepted(h, ticks, n) == bars;
      }
    }
  }

  lemma BatchFromNothing(inst: string, n: int, s: AggState, bars: seq<Bar>)
    requires n >= 1 && IsBatchOf(inst, n, s, [], bars)
    ensures bars == [] <==> s.current.None?
    ensures s.emitted + (if s.current.None? then [] else [s.current.value]) == Resample(inst, n, bars)
  {
    var batch := Resample(inst, n, bars);
    if bars != [] {
      LastBucketIsLast(inst, n, bars);
      assert [] + Front(batch) + [Last(batch)] == batch;
    }
  }

  /** Streaming equals batch: closed candles followed by the one in progress are the
      resampling of the on-time ticks, for every tick sequence and every bucket length. */
  lemma StreamEqualsBatch(inst: string, n: int, ticks: seq<Tick>)
    requires n >= 1
    ensures var s := AfterTicks(inst, n, AggState(None, []), ticks);
            var batch := Resample(inst, n, Accepted([], ticks, n));
            && (ticks == [] <==> s.current.None?)
            && s.emitted + (if s.current.None? then [] else [s.current.value]) == batch
  {
    var s, bars := StateAfter(inst, n, [], [], ticks), Accepted([], ticks, n);
    assert Resample(inst, n, []) == [];
    assert s == AfterTicks(inst, n, AggState(None, []), ticks);
    StreamInvariant(inst, n, [], [], ticks);
    assert [] + bars == bars;
    BatchFromNothing(inst, n, s, bars);
    if bars == [] { assert Newest(n, bars, ticks); }
  }

  /** Reconnect repair is exact: whatever was held before, the candles delivered from the
      bootstrap on and the one in progress are the batch of history and on-time ticks. */
  lemma ReconnectRepairExact(inst: string, n: int, s0: AggState, h: seq<Bar>, ticks: seq<Tick>)
    requires n >= 1 && h != [] && Chronological(h) && (SeamOk(n) || SameDay(h))
    ensures var s := AfterTicks(inst, n, AfterBootstrap(s0, Resample(inst, n, h)), ticks);
            var batch := Resample(inst, n, h + Accepted(h, ticks, n));
            && batch != [] && s.current == Some(Last(batch))
            && s.emitted == s0.emitted + Front(batch)
  {
    ChronologicalBuckets(h, n);
    StreamInvariant(inst, n, s0.emitted, h, ticks);
    LastBucketIsLast(inst, n, h);
    LastBucketIsLast(inst, n, h + Accepted(h, ticks, n));
    assert StateAfter(inst, n, s0.emitted, h, ticks)
        == AfterTicks(inst, n, AfterBootstrap(s0, Resample(inst, n, h)), ticks);
  }

  lemma AppendedIncrease(a: seq<Candle>, b: seq<Candle>)
    requires OpensIncrease(a) && OpensIncrease(b)
    ensures OpensIncrease(a + b) <==> a == [] || b == [] || Last(a).openTime < b[0].openTime
  {
    assert a != [] ==> (a + b)[|a| - 1] == Last(a) && forall i :: 0 <= i < |a| ==> a[i].openTime <= Last(a).openTime;
    assert b != [] ==> (a + b)[|a|] == b[0] && forall i :: 0 <= i < |b| ==> b[0].openTime <= b[i].openTime;
  }

  /** History and ticks that never leave the bucket of the first bar. */
  predicate OneBucket(h: seq<Bar>, ticks: seq<Tick>, n: int)
    requires n >= 1 && h != []
  {
    && BucketOfBar(Last(h), n) == BucketOfBar(h[0], n)
    && forall i :: 0 <= i < |ticks| ==> BucketStart(ticks[i].time, n) <= BucketOfBar(h[0], n)
  }

  /** They make one candle, and nothing else does. */
  lemma OneCandleIff(inst: string, n: int, h: seq<Bar>, ticks: seq<Tick>)
    requires n >= 1 && h != [] && BucketsAscend(h, n)
    ensures |Resample(inst, n, h + Accepted(h, ticks, n))| == 1 <==> OneBucket(h, ticks, n)
  {
    var bars := h + Accepted(h, ticks, n);
    var batch, b := Resample(inst, n, bars), BucketOfBar(h[0], n);
    StreamInvariant(inst, n, [], h, ticks);
    LastBucketIsLast(inst, n, bars);
    FirstBucketIsFirst(inst, n, bars);
    assert bars[0] == h[0];
    assert |batch| == 1 <==> BucketOfBar(Last(bars), n) == b;
    assert Last(h) == bars[|h| - 1] && b <= BucketOfBar(Last(h), n) <= BucketOfBar(Last(bars), n);
    NewestIsSeen(n, h, ticks);
  }

  /** When a reconnect followed by the given ticks delivers every candle once and in order: exactly
      when nothing had been delivered, or the history starts after the last candle delivered, or
      history and ticks stay within one candle. */
  lemma DeliveredOnceIff(inst: string, n: int, s0: AggState, h: seq<Bar>, ticks: seq<Tick>)
    requires n >= 1 && h != [] && Chronological(h) && (SeamOk(n) || SameDay(h)) && OpensIncrease(s0.emitted)
    ensures OpensIncrease(AfterTicks(inst, n, AfterBootstrap(s0, Resample(inst, n, h)), ticks).emitted) <==>
      s0.emitted == [] || Last(s0.emitted).openTime < BucketOfBar(h[0], n) || OneBucket(h, ticks, n)
  {
    var bars := h + Accepted(h, ticks, n);
    var batch := Resample(inst, n, bars);
    ReconnectRepairExact(inst, n, s0, h, ticks);
    ChronologicalBuckets(h, n);
    StreamInvariant(inst, n, s0.emitted, h, ticks);
    LastBucketIsLast(inst, n, bars);
    FirstBucketIsFirst(inst, n, bars);
    OneCandleIff(inst, n, h, ticks);
    AppendedIncrease(s0.emitted, Front(batch));
  }

  /** However the ticks go on, exactly when nothing had been delivered or the history starts after
      the last candle delivered: a tick in a later candle delivers the first one again otherwise. */
  lemma AlwaysDeliveredOnceIff(inst: string, n: int, s0: AggState, h: seq<Bar>)
    requires n >= 1 && h != [] && Chronological(h) && (SeamOk(n) || SameDay(h)) && OpensIncrease(s0.emitted)
    ensures (forall ticks :: OpensIncrease(AfterTicks(inst, n, AfterBootstrap(s0, Resample(inst, n, h)), ticks).emitted))
       <==> s0.emitted == [] || Last(s0.emitted).openTime < BucketOfBar(h[0], n)
  {
    if s0.emitted == [] || Last(s0.emitted).openTime < BucketOfBar(h[0], n) {
      forall ticks ensures OpensIncrease(AfterTicks(inst, n, AfterBootstrap(s0, Resample(inst, n, h)), ticks).emitted) {
        DeliveredOnceIff(inst, n, s0, h, ticks);
      }
    } else {
      var t := Tick(Last(h).time + n * MINUTE, 0.0);
      ChronologicalBuckets(h, n);
      LaterBucket(Last(h).time, n);
      assert [t][0] == t && BucketOfBar(h[0], n) <= BucketOfBar(Last(h), n);
      DeliveredOnceIff(inst, n, s0, h, [t]);
    }
  }

  /** N minutes later is a later bucket. */
  lemma LaterBucket(time: int, n: int)
    requires n >= 1
    ensures BucketStart(time + n * MINUTE, n) > BucketStart(time, n)
  {
    BucketCharacterised(time, n, BucketStart(time, n));
    BucketCharacterised(time + n * MINUTE, n, BucketStart(time + n * MINUTE, n));
  }

  /** It need not: two ticks and a history of the same two minutes deliver one candle twice. */
  lemma RepairDeliversTwice()
    ensures exists ticks, h ::
      && Chronological(h) && h != []
      && var s := AfterBootstrap(AfterTicks("X", 3, AggState(None, []), ticks), Resample("X", 3, h));
         |s.emitted| == 2 && s.emitted[0] == s.emitted[1]
  {
    var a, b := Tick(0, 100.0), Tick(3 * MINUTE, 100.0);
    var h := [TickBar(a), TickBar(b)];
    StreamEqualsBatch("X", 3, [a, b]);
    assert Front([a, b]) == [a] && Front([a]) == [];
    BucketCharacterised(0, 3, 0);
    BucketCharacterised(3 * MINUTE, 3, 3 * MINUTE);
    var s0 := AfterTicks("X", 3, AggState(None, []), [a, b]);
    var c := TickCandle("X", 3, a);
    assert AfterTicks("X", 3, AggState(None, []), [a]) == AggState(Some(c), []);
    assert s0.emitted == [c];
    assert OnTime([], [a], b, 3) && OnTime([], [], a, 3);
    assert Accepted([], [], 3) == [] && Accepted([], [a], 3) == [TickBar(a)];
    assert Accepted([], [a, b], 3) == h;
    assert s0.emitted + [s0.current.value] == Resample("X", 3, h);
    assert Front(Resample("X", 3, h)) == [c];
  }

  // ---------------------------------------------------------------- objects

  /** The source's mutable Candle. */
  class LiveCandle {
    const instrument: string
    const timeframe: int
    const openTime: int
    var open: real
    var high: real
    var low: real
    var close: real
    var tickCount: nat

    constructor (c: Candle)
      ensures View() == c
    {
      instrument, timeframe, openTime := c.instrument, c.timeframe, c.openTime;
      open, high, low, close, tickCount := c.open, c.high, c.low, c.close, c.tickCount;
    }

    ghost function View(): Candle
      reads this
    {
      Candle(instrument, timeframe, openTime, open, high, low, close, tickCount)
    }

    method Snapshot() returns (c: Candle)
      ensures c == View()
    {
      c := Candle(instrument, timeframe, openTime, open, high, low, close, tickCount);
    }

    method Update(price: real)
      modifies this
      ensures View() == UpdateCandle(old(View()), price)
    {
      high := Max(high, price);
      low := Min(low, price);
      close := price;
      tickCount := tickCount + 1;
    }
  }

  ghost function Views(cs: seq<LiveCandle>): (vs: seq<Candle>)
    reads cs
    ensures |vs| == |cs|
    ensures forall i :: 0 <= i < |cs| ==> vs[i] == cs[i].View()
  {
    seq(|cs|, i requires 0 <= i < |cs| reads cs => cs[i].View())
  }

  predicate Distinct<T(==)>(s: seq<T>) {
    forall i, j :: 0 <= i < j < |s| ==> s[i] != s[j]
  }

  /** The dict of the batch loop, on values: each bucket's candle. */
  function Dict(inst: string, n: int, bars: seq<Bar>): (d: map<int, Candle>)
    requires n >= 1
    ensures forall b :: b in d <==> b in BucketOrder(bars, n)
  {
    OrderIsNonEmptyBuckets(bars, n);
    map b | b in BucketOrder(bars, n) :: CandleOf(inst, n, b, InBucket(bars, n, b))
  }

  /** A bucket's candle and one more of its bars. */
  lemma CandleOfMore(inst: string, n: int, b: int, bars: seq<Bar>, bar: Bar)
    ensures bars == [] ==> CandleOf(inst, n, b, bars + [bar]) == Candle(inst, n, b, bar.open, bar.high, bar.low, bar.close, 1)
    ensures bars != [] ==> CandleOf(inst, n, b, bars + [bar]) == MergeBar(CandleOf(inst, n, b, bars), bar)
  {
    assert Front(bars + [bar]) == bars;
  }

  function Row(d: map<int, Candle>, inst: string, n: int, bar: Bar): Candle
    requires n >= 1
  {
    var b := BucketOfBar(bar, n);
    if b in d then MergeBar(d[b], bar) else BarCandle(inst, n, bar)
  }

  lemma DictMore(inst: string, n: int, raw: seq<Bar>, k: nat)
    requires n >= 1 && k < |raw|
    ensures var b, d, o := BucketOfBar(raw[k], n), Dict(inst, n, raw[..k]), BucketOrder(raw[..k], n);
      && Dict(inst, n, raw[..k + 1]) == d[b := Row(d, inst, n, raw[k])]
      && BucketOrder(raw[..k + 1], n) == if b in d then o else o + [b]
  {
    var before, after, b := raw[..k], raw[..k + 1], BucketOfBar(raw[k], n);
    assert Front(after) == before && Last(after) == raw[k];
    OrderIsNonEmptyBuckets(before, n);
    OrderIsNonEmptyBuckets(after, n);
    CandleOfMore(inst, n, b, InBucket(before, n, b), raw[k]);
    var d, d' := Dict(inst, n, before), Dict(inst, n, after);
    assert d'[b] == Row(d, inst, n, raw[k]);
    assert d'.Keys == d.Keys + {b};
  }

  ghost function ViewsOf(buckets: map<int, LiveCandle>): map<int, Candle>
    reads buckets.Values
  {
    map b | b in buckets :: buckets[b].View()
  }

  /** One row of the loop: open the bucket's candle, or merge the row into it in place. */
  method AbsorbRow(buckets: map<int, LiveCandle>, order: seq<int>, bar: Bar, inst: string, minutes: int)
    returns (buckets': map<int, LiveCandle>, order': seq<int>)
    requires minutes >= 1 && forall b :: b in buckets ==> buckets[b].openTime == b
    modifies buckets.Values
    ensures ViewsOf(buckets') == old(ViewsOf(buckets))[BucketOfBar(bar, minutes) := Row(old(ViewsOf(buckets)), inst, minutes, bar)]
    ensures order' == if BucketOfBar(bar, minutes) in buckets then order else order + [BucketOfBar(bar, minutes)]
    ensures forall c :: c in buckets'.Values ==> c in buckets.Values || fresh(c)
    ensures forall b :: b in buckets' ==> buckets'[b].openTime == b
  {
    var bucketStart := BucketStart(bar.time, minutes);
    buckets', order' := buckets, order;
    if bucketStart !in buckets {
      var candle := new LiveCandle(
        Candle(inst, minutes, bucketStart, bar.open, bar.high, bar.low, bar.close, 1));
      buckets' := buckets[bucketStart := candle];
      order' := order + [bucketStart];
    } else {
      var candle := buckets[bucketStart];
      candle.high := Max(candle.high, bar.high);
      candle.low := Min(candle.low, bar.low);
      candle.close := bar.close;
      candle.tickCount := candle.tickCount + 1;
    }
    assert forall b :: b in buckets && b != bucketStart ==> buckets'[b].View() == old(buckets[b].View());
    assert ViewsOf(buckets').Keys == old(ViewsOf(buckets)).Keys + {bucketStart};
    assert buckets'[bucketStart].View() == Row(old(ViewsOf(buckets)), inst, minutes, bar);
  }

  method ResampleCandles(raw: seq<Bar>, inst: string, minutes: int) returns (out: seq<LiveCandle>)
    requires minutes >= 1
    ensures Views(out) == Resample(inst, minutes, raw)
    ensures Distinct(out) && forall c :: c in out ==> fresh(c) && c.instrument == inst && c.timeframe == minutes
  {
    if raw == [] { return []; }
    var buckets: map<int, LiveCandle> := map[];
    var order: seq<int> := [];
    for k := 0 to |raw|
      invariant order == BucketOrder(raw[..k], minutes)
      invariant ViewsOf(buckets) == Dict(inst, minutes, raw[..k])
      invariant forall c :: c in buckets.Values ==> fresh(c)
      invariant forall b :: b in buckets ==> buckets[b].openTime == b
    {
      DictMore(inst, minutes, raw, k);
      buckets, order := AbsorbRow(buckets, order, raw[k], inst, minutes);
    }
    assert raw[..|raw|] == raw;
    out := InOrder(buckets, order, raw, inst, minutes);
  }

  /** The dict's candles in insertion order. */
  method InOrder(buckets: map<int, LiveCandle>, order: seq<int>, ghost raw: seq<Bar>, inst: string, minutes: int)
    returns (out: seq<LiveCandle>)
    requires minutes >= 1 && order == BucketOrder(raw, minutes) && ViewsOf(buckets) == Dict(inst, minutes, raw)
    ensures Views(out) == Resample(inst, minutes, raw)
    ensures Distinct(out) && forall c :: c in out ==> c in buckets.Values && c.instrument == inst && c.timeframe == minutes
  {
    forall i | 0 <= i < |order|
      ensures order[i] in buckets && buckets[order[i]].View() == Dict(inst, minutes, raw)[order[i]]
    {
      assert order[i] in ViewsOf(buckets);
    }
    OrderDistinct(raw, minutes);
    out := seq(|order|, i requires 0 <= i < |order| && order[i] in buckets => buckets[order[i]]);
    assert forall i :: 0 <= i < |out| ==> out[i].View() == Resample(inst, minutes, raw)[i];
  }

  type Key = (string, int)

  /** What one feeding hands to on_close: the candle a tick closes, if any, or all candles of a
      history but the last. */
  function HandedOut(k: Key, s: AggState, feed: Feed): (cs: seq<Candle>)
    requires k.1 >= 1
    ensures Fed(k, s, feed).emitted == s.emitted + cs
  {
    match feed
    case TickFeed(tick) =>
      var emitted := AfterTick(k.0, k.1, s, tick).emitted;
      if |emitted| > |s.emitted| then [Last(emitted)] else []
    case HistoryFeed(raw) =>
      var batch := Resample(k.0, k.1, raw);
      if batch == [] then [] else Front(batch)
  }

  class TimeframeAggregator {
    const instrument: string
    const minutes: int
    var current: LiveCandle?
    var delivered: seq<LiveCandle>  // what on_close has received

    constructor (instrument: string, minutes: int)
      requires minutes >= 1
      ensures Valid() && View() == AggState(None, [])
      ensures this.instrument == instrument && this.minutes == minutes
      ensures current == null && delivered == []
    {
      this.instrument, this.minutes := instrument, minutes;
      current, delivered := null, [];
    }

    ghost predicate Valid()
      reads this
    {
      && minutes >= 1 && (current != null ==> current !in delivered && Own(current))
      && forall c :: c in delivered ==> Own(c)
    }

    /** A candle of this aggregator's instrument and timeframe. */
    ghost predicate Own(c: LiveCandle) {
      c.instrument == instrument && c.timeframe == minutes
    }

    ghost function View(): AggState
      reads this, current, delivered
    {
      AggState(if current == null then None else Some(current.View()), Views(delivered))
    }

    /** Delivered candles are never touched again: their views only gain a tail. */
    method Ingest(price: real, ts: int) returns (closed: seq<Candle>)
      requires Valid()
      modifies this, current
      ensures Valid() && View() == AfterTick(instrument, minutes, old(View()), Tick(ts, price))
      ensures current != null && (current == old(current) || fresh(current))
      ensures delivered == old(delivered)
           || (old(current) != null && delivered == old(delivered) + [old(current)] && fresh(current))
      ensures closed == HandedOut((instrument, minutes), old(View()), TickFeed(Tick(ts, price)))
    {
      closed := [];
      var bucketStart := BucketStart(ts, minutes);
      if current == null {
        current := new LiveCandle(Candle(instrument, minutes, bucketStart, price, price, price, price, 0));
        current.Update(price);
        current.tickCount := 1;
        return;
      }
      if bucketStart == current.openTime {
        current.Update(price);
        return;
      }
      if bucketStart > current.openTime {
        var c := current.Snapshot();
        closed := [c];
        delivered := delivered + [current];
        current := new LiveCandle(Candle(instrument, minutes, bucketStart, price, price, price, price, 1));
        return;
      }
    }

    method BootstrapFromHistorical(candles: seq<LiveCandle>) returns (closed: seq<Candle>)
      requires Valid() && Distinct(candles)
      requires forall c :: c in candles ==> c !in delivered && Own(c)
      modifies this
      ensures Valid() && View() == AfterBootstrap(old(View()), Views(candles))
      ensures candles == [] ==> current == old(current) && delivered == old(delivered)
      ensures candles != [] ==> current == Last(candles) && delivered == old(delivered) + Front(candles)
      ensures closed == if candles == [] then [] else Front(Views(candles))
    {
      closed := [];
      if candles == [] { return; }
      current := candles[|candles| - 1];
      ghost var before := delivered;
      for i := 0 to |candles| - 1
        invariant current == candles[|candles| - 1]
        invariant delivered == before + candles[..i] && closed == Views(candles)[..i]
        invariant unchanged(candles) && unchanged(before)
      {
        delivered := delivered + [candles[i]];
        var c := candles[i].Snapshot();
        closed := closed + [c];
      }
      assert Views(delivered) == old(Views(delivered)) + Front(Views(candles));
    }
  }

  // ---------------------------------------------------------------- all timeframes together

  /** What an instrument is fed: a tick, or its recent one-minute history after a reconnect. */
  datatype Feed = TickFeed(tick: Tick) | HistoryFeed(raw: seq<Bar>)

  function Fed(k: Key, s: AggState, feed: Feed): AggState
    requires k.1 >= 1
  {
    match feed
    case TickFeed(tick) => AfterTick(k.0, k.1, s, tick)
    case HistoryFeed(raw) => AfterBootstrap(s, Resample(k.0, k.1, raw))
  }

  /** One aggregator at a time, in registration order. */
  function FedInOrder(views: map<Key, AggState>, keys: seq<Key>, inst: string, feed: Feed): (r: map<Key, AggState>)
    requires forall k :: k in keys ==> k in views && k.1 >= 1
    ensures r.Keys == views.Keys
  {
    if keys == [] then views
    else
      var r, k := FedInOrder(views, Front(keys), inst, feed), Last(keys);
      assert k in keys;
      if k.0 == inst then r[k := Fed(k, r[k], feed)] else r
  }

  /** The candles one feeding closes over all aggregators, in registration order: the order in
      which on_close is called. */
  function ClosedInOrder(views: map<Key, AggState>, keys: seq<Key>, inst: string, feed: Feed): seq<Candle>
    requires forall k :: k in keys ==> k in views && k.1 >= 1
  {
    if keys == [] then []
    else
      assert Last(keys) in keys;
      ClosedInOrder(views, Front(keys), inst, feed)
        + if Last(keys).0 == inst then HandedOut(Last(keys), views[Last(keys)], feed) else []
  }

  /** Every aggregator of the instrument is fed exactly once and no other one is touched. */
  lemma {:induction false} EachFedOnce(views: map<Key, AggState>, keys: seq<Key>, inst: string, feed: Feed)
    requires Distinct(keys) && forall k :: k in keys ==> k in views && k.1 >= 1
    ensures forall k :: k in views ==>
      FedInOrder(views, keys, inst, feed)[k] == (if k in keys && k.0 == inst then Fed(k, views[k], feed) else views[k])
  {
    if keys != [] {
      assert keys == Front(keys) + [Last(keys)];
      assert Last(keys) !in Front(keys) by {
        assert forall j :: 0 <= j < |keys| - 1 ==> Front(keys)[j] == keys[j];
      }
      EachFedOnce(views, Front(keys), inst, feed);
    }
  }

  /** An aggregator is as it was until its turn comes. */
  lemma NotYetFed(views: map<Key, AggState>, keys: seq<Key>, i: nat, inst: string, feed: Feed)
    requires Distinct(keys) && (forall k :: k in keys ==> k in views && k.1 >= 1) && i < |keys|
    ensures FedInOrder(views, keys[..i], inst, feed)[keys[i]] == views[keys[i]]
  {
    EachFedOnce(views, keys[..i], inst, feed);
    assert keys[i] !in keys[..i];
  }

  class CandleAggregator {
    var keys: seq<Key>  // the dict's insertion order
    var aggregators: map<Key, TimeframeAggregator>

    constructor ()
      ensures Valid() && keys == []
    {
      keys, aggregators := [], map[];
    }

    ghost predicate Valid()
      reads this, aggregators.Values
    {
      && Distinct(keys)
      && (forall k :: k in keys <==> k in aggregators)
      && (forall k :: k in aggregators ==>
            aggregators[k].Valid() && aggregators[k].instrument == k.0 && aggregators[k].minutes == k.1)
    }

    ghost function ViewOf(k: Key): AggState
      requires k in aggregators
      reads this, aggregators[k], aggregators[k].current, aggregators[k].delivered
    {
      aggregators[k].View()
    }

    ghost function Candles(): (cs: set<LiveCandle>)
      reads this, aggregators.Values
      ensures forall k :: k in aggregators && aggregators[k].current != null ==> aggregators[k].current in cs
      ensures forall k, c :: k in aggregators && c in aggregators[k].delivered ==> c in cs
    {
      (set k | k in aggregators && aggregators[k].current != null :: aggregators[k].current)
      + (set k, c | k in aggregators && c in aggregators[k].delivered :: c)
    }

    ghost function View(): map<Key, AggState>
      reads this, aggregators.Values, Candles()
    {
      map k | k in aggregators :: ViewOf(k)
    }

    /** One aggregator changed: so did the view, at its key only. */
    lemma ViewAt(was: map<Key, AggState>, key: Key, now: AggState)
      requires key in aggregators && was.Keys == aggregators.Keys && ViewOf(key) == now
      requires forall k :: k in aggregators && k != key ==> ViewOf(k) == was[k]
      ensures View() == was[key := now]
    {
    }

    method Register(instrument: string, minutes: int)
      requires Valid() && minutes >= 1
      modifies this
      ensures Valid() && aggregators.Keys == old(aggregators).Keys + {(instrument, minutes)}
      ensures forall k :: k in old(aggregators) ==> aggregators[k] == old(aggregators)[k]
      ensures (instrument, minutes) !in old(aggregators) ==> ViewOf((instrument, minutes)) == AggState(None, [])
    {
      var key := (instrument, minutes);
      if key !in aggregators {
        var agg := new TimeframeAggregator(instrument, minutes);
        aggregators := aggregators[key := agg];
        keys := keys + [key];
      }
    }

    method IngestKey(key: Key, price: real, ts: int) returns (closed: seq<Candle>)
      requires Valid() && key in aggregators
      modifies aggregators[key], aggregators[key].current
      ensures Valid()
      ensures ViewOf(key) == AfterTick(key.0, key.1, old(ViewOf(key)), Tick(ts, price))
      ensures closed == HandedOut(key, old(ViewOf(key)), TickFeed(Tick(ts, price)))
      ensures forall k :: k in aggregators && k != key ==> ViewOf(k) == old(ViewOf(k))
      ensures forall k :: k in aggregators ==>
        aggregators[k].current == old(aggregators[k].current) || fresh(aggregators[k].current)
    {
      ghost var touched := aggregators[key].current;
      assert touched != null ==> forall k :: k in aggregators && k != key ==>
        aggregators[k].current != touched && touched !in aggregators[k].delivered;
      closed := aggregators[key].Ingest(price, ts);
      forall k | k in aggregators && k != key ensures ViewOf(k) == old(ViewOf(k)) {
        assert unchanged(aggregators[k]);
        assert Views(aggregators[k].delivered) == old(Views(aggregators[k].delivered));
      }
    }

    method IngestOne(key: Key, price: real, ts: int) returns (closed: seq<Candle>)
      requires Valid() && key in aggregators
      modifies aggregators[key], aggregators[key].current
      ensures Valid() && closed == HandedOut(key, old(ViewOf(key)), TickFeed(Tick(ts, price)))
      ensures View() == old(View())[key := Fed(key, old(ViewOf(key)), TickFeed(Tick(ts, price)))]
      ensures forall k :: k in aggregators ==>
        aggregators[k].current == old(aggregators[k].current) || fresh(aggregators[k].current)
    {
      ghost var was := View();
      closed := IngestKey(key, price, ts);
      ViewAt(was, key, ViewOf(key));
    }

    /** One turn of the loop, on an aggregator of the instrument. */
    method IngestTurn(i: nat, instrument: string, price: real, ts: int, ghost was: map<Key, AggState>)
      returns (closed: seq<Candle>)
      requires Valid() && i < |keys| && keys[i].0 == instrument && was.Keys == aggregators.Keys
      requires View() == FedInOrder(was, keys[..i], instrument, TickFeed(Tick(ts, price)))
      modifies aggregators[keys[i]], aggregators[keys[i]].current
      ensures Valid()
      ensures View() == FedInOrder(was, keys[..i + 1], instrument, TickFeed(Tick(ts, price)))
      ensures closed == HandedOut(keys[i], was[keys[i]], TickFeed(Tick(ts, price)))
      ensures forall k :: k in aggregators ==>
        aggregators[k].current == old(aggregators[k].current) || fresh(aggregators[k].current)
    {
      assert Front(keys[..i + 1]) == keys[..i];
      NotYetFed(was, keys, i, instrument, TickFeed(Tick(ts, price)));
      assert View()[keys[i]] == ViewOf(keys[i]);
      closed := IngestOne(keys[i], price, ts);
    }

    /** One turn of the loop, with the candles closed so far. */
    method IngestNext(i: nat, instrument: string, price: real, ts: int, ghost was: map<Key, AggState>, closed: seq<Candle>)
      returns (closed': seq<Candle>)
      requires Valid() && i < |keys| && was.Keys == aggregators.Keys
      requires View() == FedInOrder(was, keys[..i], instrument, TickFeed(Tick(ts, price)))
      requires closed == ClosedInOrder(was, keys[..i], instrument, TickFeed(Tick(ts, price)))
      modifies aggregators[keys[i]], aggregators[keys[i]].current
      ensures Valid()
      ensures View() == FedInOrder(was, keys[..i + 1], instrument, TickFeed(Tick(ts, price)))
      ensures closed' == ClosedInOrder(was, keys[..i + 1], instrument, TickFeed(Tick(ts, price)))
      ensures forall k :: k in aggregators ==>
        aggregators[k].current == old(aggregators[k].current) || fresh(aggregators[k].current)
    {
      assert Front(keys[..i + 1]) == keys[..i] && keys[i] in keys;
      closed' := closed;
      if keys[i].0 == instrument {
        var more := IngestTurn(i, instrument, price, ts, was);
        closed' := closed + more;
      }
    }

    /** The candles closed are those handed to on_close, in the order of the calls. */
    method IngestTick(instrument: string, price: real, ts: int) returns (closed: seq<Candle>)
      requires Valid()
      modifies aggregators.Values, Candles()
      ensures Valid()
      ensures View() == FedInOrder(old(View()), keys, instrument, TickFeed(Tick(ts, price)))
      ensures closed == ClosedInOrder(old(View()), keys, instrument, TickFeed(Tick(ts, price)))
    {
      closed := [];
      ghost var was := View();
      for i := 0 to |keys|
        invariant Valid()
        invariant forall k :: k in aggregators ==>
          aggregators[k].current == old(aggregators[k].current) || fresh(aggregators[k].current)
        invariant View() == FedInOrder(was, keys[..i], instrument, TickFeed(Tick(ts, price)))
        invariant closed == ClosedInOrder(was, keys[..i], instrument, TickFeed(Tick(ts, price)))
      {
        assert keys[i] in keys;
        closed := IngestNext(i, instrument, price, ts, was, closed);
      }
      assert keys[..|keys|] == keys;
    }

    method BootstrapOne(key: Key, raw: seq<Bar>) returns (closed: seq<Candle>)
      requires Valid() && key in aggregators
      modifies aggregators[key]
      ensures Valid() && closed == HandedOut(key, old(ViewOf(key)), HistoryFeed(raw))
      ensures View() == old(View())[key := Fed(key, old(ViewOf(key)), HistoryFeed(raw))]
    {
      var resampled := ResampleCandles(raw, key.0, key.1);
      SameViews();
      closed := RepairFrom(key, resampled, raw);
    }

    twostate lemma SameViews()
      requires old(Valid()) && unchanged(this) && unchanged(aggregators.Values) && unchanged(Candles())
      ensures Valid() && View() == old(View()) && forall k :: k in aggregators ==> ViewOf(k) == old(ViewOf(k))
    {
    }

    method RepairFrom(key: Key, candles: seq<LiveCandle>, ghost raw: seq<Bar>) returns (closed: seq<Candle>)
      requires Valid() && key in aggregators && Distinct(candles) && Views(candles) == Resample(key.0, key.1, raw)
      requires forall c :: c in candles ==> c !in aggregators[key].delivered && c.instrument == key.0 && c.timeframe == key.1
      modifies aggregators[key]
      ensures Valid() && closed == HandedOut(key, old(ViewOf(key)), HistoryFeed(raw))
      ensures View() == old(View())[key := Fed(key, old(ViewOf(key)), HistoryFeed(raw))]
    {
      closed := RepairOne(key, candles);
    }

    method RepairOne(key: Key, candles: seq<LiveCandle>) returns (closed: seq<Candle>)
      requires Valid() && key in aggregators && Distinct(candles)
      requires forall c :: c in candles ==> c !in aggregators[key].delivered && c.instrument == key.0 && c.timeframe == key.1
      modifies aggregators[key]
      ensures Valid() && closed == if candles == [] then [] else Front(Views(candles))
      ensures View() == old(View())[key := AfterBootstrap(old(ViewOf(key)), Views(candles))]
    {
      closed := aggregators[key].BootstrapFromHistorical(candles);
      forall k | k in aggregators && k != key ensures ViewOf(k) == old(ViewOf(k)) {
        assert unchanged(aggregators[k]);
        assert Views(aggregators[k].delivered) == old(Views(aggregators[k].delivered));
      }
      ViewAt(old(View()), key, ViewOf(key));
    }

    /** One turn of the loop, with the candles closed so far. */
    method BootstrapNext(i: nat, instrument: string, raw: seq<Bar>, ghost was: map<Key, AggState>, closed: seq<Candle>)
      returns (closed': seq<Candle>)
      requires Valid() && i < |keys| && was.Keys == aggregators.Keys
      requires View() == FedInOrder(was, keys[..i], instrument, HistoryFeed(raw))
      requires closed == ClosedInOrder(was, keys[..i], instrument, HistoryFeed(raw))
      modifies aggregators[keys[i]]
      ensures Valid()
      ensures View() == FedInOrder(was, keys[..i + 1], instrument, HistoryFeed(raw))
      ensures closed' == ClosedInOrder(was, keys[..i + 1], instrument, HistoryFeed(raw))
    {
      assert Front(keys[..i + 1]) == keys[..i] && keys[i] in keys;
      closed' := closed;
      if keys[i].0 == instrument {
        NotYetFed(was, keys, i, instrument, HistoryFeed(raw));
        assert View()[keys[i]] == ViewOf(keys[i]);
        var more := BootstrapOne(keys[i], raw);
        closed' := closed + more;
      }
    }

    /** Each timeframe is repaired from its own resampling of the history. */
    method BootstrapInstrument(instrument: string, raw: seq<Bar>) returns (closed: seq<Candle>)
      requires Valid()
      modifies aggregators.Values
      ensures Valid()
      ensures View() == FedInOrder(old(View()), keys, instrument, HistoryFeed(raw))
      ensures closed == ClosedInOrder(old(View()), keys, instrument, HistoryFeed(raw))
    {
      closed := [];
      ghost var was := View();
      for i := 0 to |keys|
        invariant Valid()
        invariant View() == FedInOrder(was, keys[..i], instrument, HistoryFeed(raw))
        invariant closed == ClosedInOrder(was, keys[..i], instrument, HistoryFeed(raw))
      {
        assert keys[i] in keys;
        closed := BootstrapNext(i, instrument, raw, was, closed);
      }
      assert keys[..|keys|] == keys;
    }
  }
}
