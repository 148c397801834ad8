/** In which order live trading hands a machine the candles of its two timeframes.  One tick goes
    to the aggregators in registration order, the higher timeframe first (main.py).
 */
module LiveOrder {
  import opened Basics
  import opened Buckets
  import opened Aggregator

  function Streamed(inst: string, n: int, ticks: seq<Tick>): AggState
    requires n >= 1
  {
    AfterTicks(inst, n, AggState(None, []), ticks)
  }

  /** The candles one more tick closes, over all timeframes of the list, in its order. */
  function ClosedOn(inst: string, ns: seq<int>, ticks: seq<Tick>, t: Tick): seq<Candle>
    requires forall i :: 0 <= i < |ns| ==> ns[i] >= 1
  {
    if ns == [] then []
    else ClosedOn(inst, Front(ns), ticks, t) + HandedOut((inst, Last(ns)), Streamed(inst, Last(ns), ticks), TickFeed(t))
  }

  /** It is what the aggregators hand out when the timeframes are registered in that order. */
  lemma {:induction false} ClosedOnIsLive(views: map<Key, AggState>, inst: string, ns: seq<int>, keys: seq<Key>,
                                          ticks: seq<Tick>, t: Tick)
    requires |keys| == |ns| && forall i :: 0 <= i < |ns| ==> ns[i] >= 1 && keys[i] == (inst, ns[i])
    requires forall i :: 0 <= i < |ns| ==> keys[i] in views && views[keys[i]] == Streamed(inst, ns[i], ticks)
    ensures ClosedInOrder(views, keys, inst, TickFeed(t)) == ClosedOn(inst, ns, ticks, t)
  {
    if ns != [] {
      ClosedOnIsLive(views, inst, Front(ns), Front(keys), ticks, t);
    }
  }

  /** Whether a candle lies inside the bucket of `m` minutes that starts at `b`. */
  predicate LiesIn(c: Candle, m: int, b: int)
    requires m >= 1
  {
    BucketStart(c.openTime, m) == b
  }

  /** The finer candle in progress lies in the coarser one in progress, and those handed out
      came before it. */
  predicate Nested(fine: AggState, coarse: AggState, m: int)
    requires m >= 1
  {
    && (fine.current.Some? <==> coarse.current.Some?)
    && (fine.current.None? ==> fine.emitted == [])
    && (fine.current.Some? ==>
          && LiesIn(fine.current.value, m, coarse.current.value.openTime)
          && forall i :: 0 <= i < |fine.emitted| ==> fine.emitted[i].openTime < fine.current.value.openTime)
  }

  predicate Nest(n: int, m: int) {
    n >= 1 && m >= 1 && 15 % n == 0 && m % n == 0 && SeamOk(m)
  }

  /** A tick's buckets against the candles in progress: the coarser one moves on only when the
      finer one does. */
  lemma BucketsMoveTogether(n: int, m: int, x: int, t: int)
    requires Nest(n, m)
    ensures BucketStart(t, m) == BucketStart(BucketStart(t, n), m)
    ensures x <= BucketStart(t, n) ==> BucketStart(x, m) <= BucketStart(t, m)
    ensures BucketStart(t, n) <= x ==> BucketStart(t, m) <= BucketStart(x, m)
  {
    BucketsNest(t, n, m);
    if x <= BucketStart(t, n) { MonotoneAcrossDays(x, BucketStart(t, n), m); }
    if BucketStart(t, n) <= x { MonotoneAcrossDays(BucketStart(t, n), x, m); }
  }

  lemma NestedStep(inst: string, n: int, m: int, fine: AggState, coarse: AggState, t: Tick)
    requires Nest(n, m) && Nested(fine, coarse, m)
    ensures Nested(AfterTick(inst, n, fine, t), AfterTick(inst, m, coarse, t), m)
  {
    if fine.current.Some? {
      BucketsMoveTogether(n, m, fine.current.value.openTime, t.time);
    } else {
      BucketsMoveTogether(n, m, 0, t.time);
    }
  }

  lemma {:induction false} AlwaysNested(inst: string, n: int, m: int, ticks: seq<Tick>)
    requires Nest(n, m)
    ensures Nested(Streamed(inst, n, ticks), Streamed(inst, m, ticks), m)
  {
    if ticks != [] {
      AlwaysNested(inst, n, m, Front(ticks));
      NestedStep(inst, n, m, Streamed(inst, n, Front(ticks)), Streamed(inst, m, Front(ticks)), Last(ticks));
    }
  }

  /** The tick that closes a coarse candle also closes the last of the finer candles inside it,
      and the coarse one is handed out first: a machine fed live sees a 75-minute candle after
      all of its 3-minute candles but one. */
  lemma CoarseBeforeItsLast(inst: string, n: int, m: int, ticks: seq<Tick>, t: Tick)
    requires Nest(n, m)
    requires var s := Streamed(inst, m, ticks).current; s.Some? && BucketStart(t.time, m) > s.value.openTime
    ensures var fine, coarse := Streamed(inst, n, ticks), Streamed(inst, m, ticks);
      && fine.current.Some?
      && ClosedOn(inst, [m, n], ticks, t) == [coarse.current.value, fine.current.value]
      && LiesIn(fine.current.value, m, coarse.current.value.openTime)
      && (forall i :: 0 <= i < |fine.emitted| ==> BucketStart(fine.emitted[i].openTime, m) <= coarse.current.value.openTime)
      && BucketStart(AfterTick(inst, n, fine, t).current.value.openTime, m) > coarse.current.value.openTime
  {
    var fine, coarse := Streamed(inst, n, ticks), Streamed(inst, m, ticks);
    AlwaysNested(inst, n, m, ticks);
    var x := fine.current.value.openTime;
    BucketsMoveTogether(n, m, x, t.time);
    forall i | 0 <= i < |fine.emitted| ensures BucketStart(fine.emitted[i].openTime, m) <= coarse.current.value.openTime {
      MonotoneAcrossDays(fine.emitted[i].openTime, x, m);
    }
    ClosedOnBoth(inst, n, m, ticks, t);
  }

  lemma ClosedOnBoth(inst: string, n: int, m: int, ticks: seq<Tick>, t: Tick)
    requires n >= 1 && m >= 1
    requires var s := Streamed(inst, n, ticks).current; s.Some? && BucketStart(t.time, n) > s.value.openTime
    requires var s := Streamed(inst, m, ticks).current; s.Some? && BucketStart(t.time, m) > s.value.openTime
    ensures ClosedOn(inst, [m, n], ticks, t)
         == [Streamed(inst, m, ticks).current.value, Streamed(inst, n, ticks).current.value]
  {
    assert Front([m, n]) == [m] && Front([m]) == [];
    assert ClosedOn(inst, [], ticks, t) == [];
    assert ClosedOn(inst, [m], ticks, t) == [Streamed(inst, m, ticks).current.value];
  }
}
