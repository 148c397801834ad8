/** The second half of a simulated trade on the candles of finer bars: when the runner reaches
    target 2, when it returns to breakeven, and when the simulator is pessimistic about the two.
 */
module SpotRunner {
  import opened Basics
  import opened Buckets
  import opened Resampler
  import opened Aggregator
  import opened SpotTrades

  /** The levels that decide once target 1 is booked. */
  function Runner(lv: Levels): Levels { lv.(sl := lv.entry, t1 := lv.t2) }

  predicate CandleStops(lv: Levels, cs: seq<Candle>, b: int) {
    exists k :: 0 <= k < |cs| && cs[k].openTime == b && HitsStop(lv, cs[k], lv.sl)
  }

  predicate CandleReaches(lv: Levels, cs: seq<Candle>, b: int) {
    exists k :: 0 <= k < |cs| && cs[k].openTime == b && HitsTarget(lv, cs[k], lv.t1)
  }

  /** Some bar of bucket `b` touches the stop, or the target. */
  predicate StopTouched(lv: Levels, bars: seq<Bar>, n: int, b: int)
    requires n >= 1
  {
    exists i :: 0 <= i < |bars| && BucketOfBar(bars[i], n) == b && BarStops(lv, bars[i])
  }

  predicate TargetTouched(lv: Levels, bars: seq<Bar>, n: int, b: int)
    requires n >= 1
  {
    exists i :: 0 <= i < |bars| && BucketOfBar(bars[i], n) == b && BarReachesT1(lv, bars[i])
  }

  lemma TouchedIff(lv: Levels, inst: string, n: int, bars: seq<Bar>, b: int)
    requires n >= 1
    ensures CandleStops(lv, Resample(inst, n, bars), b) <==> StopTouched(lv, bars, n, b)
    ensures CandleReaches(lv, Resample(inst, n, bars), b) <==> TargetTouched(lv, bars, n, b)
  {
    var r := Resample(inst, n, bars);
    forall k | 0 <= k < |r| && r[k].openTime == b
      ensures HitsStop(lv, r[k], lv.sl) <==> StopTouched(lv, bars, n, b)
      ensures HitsTarget(lv, r[k], lv.t1) <==> TargetTouched(lv, bars, n, b)
    {
      CandleTouches(lv, inst, n, bars, k);
    }
    if StopTouched(lv, bars, n, b) || TargetTouched(lv, bars, n, b) {
      var i :| 0 <= i < |bars| && BucketOfBar(bars[i], n) == b;
      BarHasCandle(inst, n, bars, i);
      var k :| 0 <= k < |r| && r[k].openTime == b;
    }
  }

  // ---------------------------------------------------------------- on candles

  /** Target 1 is booked on the candle at `b`: first touched there, the stop not touched yet. */
  ghost predicate BooksAt(lv: Levels, cs: seq<Candle>, b: int) {
    && lv.entryTime < b && CandleReaches(lv, cs, b)
    && (forall a :: lv.entryTime < a <= b ==> !CandleStops(lv, cs, a))
    && (forall a :: lv.entryTime < a < b ==> !CandleReaches(lv, cs, a))
  }

  ghost predicate RunsTo(lv: Levels, cs: seq<Candle>, b: int, e: int) {
    && b < e && CandleReaches(Runner(lv), cs, e)
    && (forall a :: b < a <= e ==> !CandleStops(Runner(lv), cs, a))
  }

  ghost predicate ReturnsAt(lv: Levels, cs: seq<Candle>, b: int, e: int) {
    && b < e && CandleStops(Runner(lv), cs, e)
    && (forall a :: b < a < e ==> !CandleReaches(Runner(lv), cs, a))
  }

  /** The booking candle of the two passages is the one `BooksAt` describes. */
  lemma BooksIff(lv: Levels, cs: seq<Candle>, b: int)
    requires OpensIncrease(cs)
    ensures var k := FirstLevelHit(lv, cs, lv.sl, lv.t1);
      BooksAt(lv, cs, b) <==> k < |cs| && !HitsStop(lv, cs[k], lv.sl) && cs[k].openTime == b
  {
    var k := FirstLevelHit(lv, cs, lv.sl, lv.t1);
    if BooksAt(lv, cs, b) {
      var h :| 0 <= h < |cs| && cs[h].openTime == b && HitsTarget(lv, cs[h], lv.t1);
      assert Decides(lv, cs[h], lv.sl, lv.t1);
      assert k <= h;
      assert !CandleStops(lv, cs, cs[k].openTime);
      assert k < h ==> !CandleReaches(lv, cs, cs[k].openTime);
    }
    if k < |cs| && !HitsStop(lv, cs[k], lv.sl) && cs[k].openTime == b {
      forall a | lv.entryTime < a <= b ensures !CandleStops(lv, cs, a) {
        forall j | 0 <= j < |cs| && cs[j].openTime == a ensures !HitsStop(lv, cs[j], lv.sl) {
          if j < k { assert !Decides(lv, cs[j], lv.sl, lv.t1); }
        }
      }
      forall a | lv.entryTime < a < b ensures !CandleReaches(lv, cs, a) {
        forall j | 0 <= j < |cs| && cs[j].openTime == a ensures !HitsTarget(lv, cs[j], lv.t1) {
          assert !Decides(lv, cs[j], lv.sl, lv.t1);
        }
      }
    }
  }

  lemma RunsToHits(lv: Levels, cs: seq<Candle>, k: nat, e: int)
    requires OpensIncrease(cs) && k < |cs| && cs[k].openTime > lv.entryTime && RunsTo(lv, cs, cs[k].openTime, e)
    ensures var rest := cs[k + 1..];
      var h := FirstLevelHit(lv, rest, lv.entry, lv.t2);
      h < |rest| && !HitsStop(lv, rest[h], lv.entry)
  {
    var rest := cs[k + 1..];
    var h := FirstLevelHit(lv, rest, lv.entry, lv.t2);
    var j :| 0 <= j < |cs| && cs[j].openTime == e && HitsTarget(Runner(lv), cs[j], lv.t2);
    assert cs[j] == rest[j - k - 1] && Decides(lv, rest[j - k - 1], lv.entry, lv.t2);
    assert cs[h + k + 1] == rest[h];
    assert !CandleStops(Runner(lv), cs, cs[h + k + 1].openTime);
  }

  lemma ReturnsAtHits(lv: Levels, cs: seq<Candle>, k: nat, e: int)
    requires OpensIncrease(cs) && k < |cs| && cs[k].openTime > lv.entryTime && ReturnsAt(lv, cs, cs[k].openTime, e)
    ensures var rest := cs[k + 1..];
      var h := FirstLevelHit(lv, rest, lv.entry, lv.t2);
      h < |rest| && HitsStop(lv, rest[h], lv.entry)
  {
    var rest := cs[k + 1..];
    var h := FirstLevelHit(lv, rest, lv.entry, lv.t2);
    var j :| 0 <= j < |cs| && cs[j].openTime == e && HitsStop(Runner(lv), cs[j], lv.entry);
    assert cs[j] == rest[j - k - 1] && Decides(lv, rest[j - k - 1], lv.entry, lv.t2);
    assert cs[h + k + 1] == rest[h];
    assert h < j - k - 1 ==> !CandleReaches(Runner(lv), cs, cs[h + k + 1].openTime);
  }

  /** The runner from the candle after `k`, which opens after the entry. */
  lemma RunnerIff(lv: Levels, cs: seq<Candle>, k: nat)
    requires OpensIncrease(cs) && k < |cs| && cs[k].openTime > lv.entryTime
    ensures var w, b := RunnerWalk(lv, cs[k + 1..], cs[k].openTime), cs[k].openTime;
      && (w.outcome == T1ThenT2 <==> exists e :: RunsTo(lv, cs, b, e))
      && (w.outcome == T1ThenSl <==> exists e :: ReturnsAt(lv, cs, b, e))
      && w.outcome != SlDirect
  {
    var rest, b := cs[k + 1..], cs[k].openTime;
    var h := FirstLevelHit(lv, rest, lv.entry, lv.t2);
    forall e | RunsTo(lv, cs, b, e) ensures h < |rest| && !HitsStop(lv, rest[h], lv.entry) { RunsToHits(lv, cs, k, e); }
    forall e | ReturnsAt(lv, cs, b, e) ensures h < |rest| && HitsStop(lv, rest[h], lv.entry) { ReturnsAtHits(lv, cs, k, e); }
    if h < |rest| { FirstHitDecides(lv, cs, k, h); }
  }

  lemma FirstHitDecides(lv: Levels, cs: seq<Candle>, k: nat, h: nat)
    requires OpensIncrease(cs) && k < |cs| && cs[k].openTime > lv.entryTime
    requires h == FirstLevelHit(lv, cs[k + 1..], lv.entry, lv.t2) < |cs[k + 1..]|
    ensures if HitsStop(lv, cs[k + 1..][h], lv.entry) then ReturnsAt(lv, cs, cs[k].openTime, cs[k + 1..][h].openTime)
            else RunsTo(lv, cs, cs[k].openTime, cs[k + 1..][h].openTime)
  {
    var rest, b := cs[k + 1..], cs[k].openTime;
    var e := rest[h].openTime;
    assert cs[h + k + 1] == rest[h];
    forall j | 0 <= j < |cs| && b < cs[j].openTime < e
      ensures !HitsStop(lv, cs[j], lv.entry) && !HitsTarget(lv, cs[j], lv.t2)
    {
      assert cs[j] == rest[j - k - 1];
      assert !Decides(lv, rest[j - k - 1], lv.entry, lv.t2);
    }
  }

  ghost predicate TargetAfterTarget(lv: Levels, cs: seq<Candle>, b: int, e: int) { BooksAt(lv, cs, b) && RunsTo(lv, cs, b, e) }

  ghost predicate BreakevenAfterTarget(lv: Levels, cs: seq<Candle>, b: int, e: int) { BooksAt(lv, cs, b) && ReturnsAt(lv, cs, b, e) }

  lemma CandleOutcomeIff(lv: Levels, cs: seq<Candle>)
    requires OpensIncrease(cs)
    ensures var o := WalkFrom(lv, cs, None).outcome;
      && (o == T1ThenT2 <==> exists b, e :: TargetAfterTarget(lv, cs, b, e))
      && (o == T1ThenSl <==> exists b, e :: BreakevenAfterTarget(lv, cs, b, e))
  {
    WalkIsTwoPassages(lv, cs);
    var k := FirstLevelHit(lv, cs, lv.sl, lv.t1);
    forall b { BooksIff(lv, cs, b); }
    if k < |cs| && !HitsStop(lv, cs[k], lv.sl) {
      RunnerIff(lv, cs, k);
      var b := cs[k].openTime;
      assert BooksAt(lv, cs, b);
      if e :| RunsTo(lv, cs, b, e) { assert TargetAfterTarget(lv, cs, b, e); }
      if e :| ReturnsAt(lv, cs, b, e) { assert BreakevenAfterTarget(lv, cs, b, e); }
    }
  }

  // ---------------------------------------------------------------- on bars

  /** Target 1 is booked in bucket `b`: no bar of an earlier bucket reaches it, and no bar up to
      the end of the bucket touches the stop. */
  ghost predicate BooksIn(lv: Levels, bars: seq<Bar>, n: int, b: int)
    requires n >= 1
  {
    && lv.entryTime < b && TargetTouched(lv, bars, n, b)
    && (forall a :: lv.entryTime < a <= b ==> !StopTouched(lv, bars, n, a))
    && (forall a :: lv.entryTime < a < b ==> !TargetTouched(lv, bars, n, a))
  }

  /** A bar of the later bucket `e` reaches target 2, and none after bucket `b` up to the end of
      bucket `e` touches breakeven. */
  ghost predicate ReachesTarget2In(lv: Levels, bars: seq<Bar>, n: int, b: int, e: int)
    requires n >= 1
  {
    && b < e && TargetTouched(Runner(lv), bars, n, e)
    && forall a :: b < a <= e ==> !StopTouched(Runner(lv), bars, n, a)
  }

  /** A bar of the later bucket `e` touches breakeven, and none between the buckets reaches
      target 2. */
  ghost predicate ReturnsIn(lv: Levels, bars: seq<Bar>, n: int, b: int, e: int)
    requires n >= 1
  {
    && b < e && StopTouched(Runner(lv), bars, n, e)
    && forall a :: b < a < e ==> !TargetTouched(Runner(lv), bars, n, a)
  }

  lemma BarsDecide(lv: Levels, inst: string, n: int, bars: seq<Bar>)
    requires n >= 1
    ensures var r := Resample(inst, n, bars);
      && (forall b :: BooksAt(lv, r, b) <==> BooksIn(lv, bars, n, b))
      && (forall b, e :: RunsTo(lv, r, b, e) <==> ReachesTarget2In(lv, bars, n, b, e))
      && (forall b, e :: ReturnsAt(lv, r, b, e) <==> ReturnsIn(lv, bars, n, b, e))
  {
    forall b { TouchedIff(lv, inst, n, bars, b); }
    forall b { TouchedIff(Runner(lv), inst, n, bars, b); }
  }

  /** What the simulator reports of a trade that booked target 1, read off the bars its candles
      are made of. */
  lemma RunnerOutcomeIff(lv: Levels, inst: string, n: int, bars: seq<Bar>)
    requires n >= 1 && BucketsAscend(bars, n)
    ensures var o := WalkFrom(lv, Resample(inst, n, bars), None).outcome;
      && (o == T1ThenT2 <==> exists b, e :: BooksIn(lv, bars, n, b) && ReachesTarget2In(lv, bars, n, b, e))
      && (o == T1ThenSl <==> exists b, e :: BooksIn(lv, bars, n, b) && ReturnsIn(lv, bars, n, b, e))
  {
    var r := Resample(inst, n, bars);
    if bars != [] { LastBucketIsLast(inst, n, bars); }
    CandleOutcomeIff(lv, r);
    BarsDecide(lv, inst, n, bars);
    forall b, e ensures TargetAfterTarget(lv, r, b, e) <==> BooksIn(lv, bars, n, b) && ReachesTarget2In(lv, bars, n, b, e) {}
    forall b, e ensures BreakevenAfterTarget(lv, r, b, e) <==> BooksIn(lv, bars, n, b) && ReturnsIn(lv, bars, n, b, e) {}
  }

  // ---------------------------------------------------------------- pessimism after target 1

  /** In the order of the bars: bar `i` is the first to reach target 1, nothing touched the stop
      by then, and the last bar is the first after it to come back to breakeven, target 2 not
      being reached in between. */
  predicate TargetThenBreakeven(lv: Levels, bars: seq<Bar>, i: nat) {
    && i < |bars| - 1 && BarReachesT1(lv, bars[i]) && BarStops(Runner(lv), Last(bars))
    && (forall j :: 0 <= j <= i ==> !BarStops(lv, bars[j]))
    && (forall j :: 0 <= j < i ==> !BarReachesT1(lv, bars[j]))
    && (forall j :: i < j < |bars| ==> !BarReachesT1(Runner(lv), bars[j]))
    && (forall j :: i < j < |bars| - 1 ==> !BarStops(Runner(lv), bars[j]))
  }

  predicate PostEntry(lv: Levels, bars: seq<Bar>, n: int)
    requires n >= 1
  {
    forall j :: 0 <= j < |bars| ==> BucketOfBar(bars[j], n) > lv.entryTime
  }

  predicate Target2BeyondEntry(lv: Levels) { if lv.long then lv.t2 > lv.entry else lv.t2 < lv.entry }

  /** However the bars go on, the simulator does not report target 2. */
  ghost predicate NeverTarget2(lv: Levels, inst: string, n: int, bars: seq<Bar>)
    requires n >= 1
  {
    forall more :: BucketsAscend(bars + more, n) ==>
      WalkFrom(lv, Resample(inst, n, bars + more), None).outcome != T1ThenT2
  }

  /** The booking bucket is that of the first bar to reach target 1. */
  lemma BooksInFirst(lv: Levels, bars: seq<Bar>, n: int, i: nat, b: int)
    requires n >= 1 && BucketsAscend(bars, n) && i < |bars| && PostEntry(lv, bars[..i + 1], n)
    requires BarReachesT1(lv, bars[i]) && forall j :: 0 <= j < i ==> !BarReachesT1(lv, bars[j])
    requires BooksIn(lv, bars, n, b)
    ensures b == BucketOfBar(bars[i], n)
  {
    var b1 := BucketOfBar(bars[i], n);
    assert bars[..i + 1][i] == bars[i];
    assert TargetTouched(lv, bars, n, b1);
    var j :| 0 <= j < |bars| && BucketOfBar(bars[j], n) == b && BarReachesT1(lv, bars[j]);
    assert i <= j;
  }

  lemma TouchCarries(lv: Levels, bars: seq<Bar>, more: seq<Bar>, n: int, b: int)
    requires n >= 1
    ensures StopTouched(lv, bars, n, b) ==> StopTouched(lv, bars + more, n, b)
  {
    if StopTouched(lv, bars, n, b) {
      var j :| 0 <= j < |bars| && BucketOfBar(bars[j], n) == b && BarStops(lv, bars[j]);
      assert (bars + more)[j] == bars[j];
    }
  }

  /** The return to breakeven in a later bucket comes before any target 2. */
  lemma Target2TooLate(lv: Levels, bars: seq<Bar>, more: seq<Bar>, n: int, i: nat, e: int)
    requires n >= 1 && BucketsAscend(bars + more, n) && TargetThenBreakeven(lv, bars, i)
    requires BucketOfBar(bars[i], n) < BucketOfBar(Last(bars), n)
    ensures !ReachesTarget2In(lv, bars + more, n, BucketOfBar(bars[i], n), e)
  {
    var all, b, q := bars + more, BucketOfBar(bars[i], n), |bars| - 1;
    assert forall j :: 0 <= j < |bars| ==> all[j] == bars[j];
    assert BarStops(Runner(lv), all[q]);
    assert StopTouched(Runner(lv), all, n, BucketOfBar(all[q], n));
    forall j | 0 <= j < |all| && b < BucketOfBar(all[j], n) < BucketOfBar(all[q], n)
      ensures !BarReachesT1(Runner(lv), all[j])
    {
      assert i < j < q;
    }
  }

  lemma BreakevenFirstHolds(lv: Levels, inst: string, n: int, bars: seq<Bar>, i: nat, more: seq<Bar>)
    requires n >= 1 && BucketsAscend(bars + more, n) && PostEntry(lv, bars, n) && TargetThenBreakeven(lv, bars, i)
    requires var b := BucketOfBar(bars[i], n); b < BucketOfBar(Last(bars), n) || StopTouched(lv, bars, n, b)
    ensures WalkFrom(lv, Resample(inst, n, bars + more), None).outcome != T1ThenT2
  {
    var all := bars + more;
    RunnerOutcomeIff(lv, inst, n, all);
    assert forall j :: 0 <= j < |bars| ==> all[j] == bars[j];
    forall b, e ensures !(BooksIn(lv, all, n, b) && ReachesTarget2In(lv, all, n, b, e)) {
      if BooksIn(lv, all, n, b) {
        BooksInFirst(lv, all, n, i, b);
        TouchCarries(lv, bars, more, n, b);
        if b < BucketOfBar(Last(bars), n) { Target2TooLate(lv, bars, more, n, i, e); }
      }
    }
  }

  /** One later bar at target 2. */
  function Target2Bar(lv: Levels, n: int, last: Bar): Bar { Bar(last.time + n * MINUTE, lv.t2, lv.t2, lv.t2, lv.t2, 0.0) }

  lemma HiddenBreakeven(lv: Levels, inst: string, n: int, bars: seq<Bar>, i: nat)
    requires n >= 1 && BucketsAscend(bars, n) && PostEntry(lv, bars, n) && TargetThenBreakeven(lv, bars, i)
    requires Target2BeyondEntry(lv)
    requires var b := BucketOfBar(bars[i], n); b == BucketOfBar(Last(bars), n) && !StopTouched(lv, bars, n, b)
    ensures var more := [Target2Bar(lv, n, Last(bars))];
      BucketsAscend(bars + more, n) && WalkFrom(lv, Resample(inst, n, bars + more), None).outcome == T1ThenT2
  {
    var x := Target2Bar(lv, n, Last(bars));
    var all, b, e := bars + [x], BucketOfBar(bars[i], n), BucketOfBar(x, n);
    LaterBucket(Last(bars).time, n);
    assert forall j :: 0 <= j < |bars| ==> all[j] == bars[j] && BucketOfBar(bars[j], n) <= b;
    assert all[|bars|] == x && BarReachesT1(Runner(lv), x) && !BarStops(Runner(lv), x);
    assert BooksIn(lv, all, n, b) by {
      assert BarReachesT1(lv, all[i]);
      forall a | lv.entryTime < a <= b ensures !StopTouched(lv, all, n, a) {
        forall j | 0 <= j < |all| && BucketOfBar(all[j], n) == a ensures !BarStops(lv, all[j]) {
          assert j < |bars|;
        }
      }
    }
    assert ReachesTarget2In(lv, all, n, b, e);
    RunnerOutcomeIff(lv, inst, n, all);
  }

  /** When the simulator is pessimistic after target 1: for bars that reach target 1 and come back
      to breakeven before target 2, no continuation is reported as target 2 exactly when the
      return lies in a later candle than target 1, or target 1's own candle touches the stop. */
  lemma PessimisticIff(lv: Levels, inst: string, n: int, bars: seq<Bar>, i: nat)
    requires n >= 1 && BucketsAscend(bars, n) && PostEntry(lv, bars, n) && TargetThenBreakeven(lv, bars, i)
    requires Target2BeyondEntry(lv)
    ensures NeverTarget2(lv, inst, n, bars) <==>
      BucketOfBar(bars[i], n) < BucketOfBar(Last(bars), n) || StopTouched(lv, bars, n, BucketOfBar(bars[i], n))
  {
    var b := BucketOfBar(bars[i], n);
    assert b <= BucketOfBar(bars[|bars| - 1], n);
    if b < BucketOfBar(Last(bars), n) || StopTouched(lv, bars, n, b) {
      forall more | BucketsAscend(bars + more, n)
        ensures WalkFrom(lv, Resample(inst, n, bars + more), None).outcome != T1ThenT2
      {
        BreakevenFirstHolds(lv, inst, n, bars, i, more);
      }
    } else {
      HiddenBreakeven(lv, inst, n, bars, i);
    }
  }
}
