/** The order of the replay against the order of live trading, for the same candles. */
module ReplayOrder {
  import opened Basics
  import opened Buckets
  import opened Aggregator
  import opened LiveOrder
  import opened Patterns
  import opened SignalMachine
  import opened SignalRuns
  import opened SignalStory
  import opened SignalGates
  import opened SignalExamples
  import opened SignalTrades
  import opened Diagnostic

  /** What closing candles feed a machine whose higher timeframe is `m` minutes. */
  function AsInputs(cs: seq<Candle>, m: int): (ins: seq<Input>)
    ensures |ins| == |cs|
    ensures forall i :: 0 <= i < |cs| ==> ins[i] == if cs[i].timeframe == m then Htf(cs[i]) else Ltf(cs[i])
  {
    seq(|cs|, i requires 0 <= i < |cs| => if cs[i].timeframe == m then Htf(cs[i]) else Ltf(cs[i]))
  }

  /** The inputs of live trading over a tick stream, in the order of the calls. */
  function LiveInputs(inst: string, n: int, m: int, ticks: seq<Tick>): seq<Input>
    requires n >= 1 && m >= 1
  {
    if ticks == [] then []
    else LiveInputs(inst, n, m, Front(ticks)) + AsInputs(ClosedOn(inst, [m, n], Front(ticks), Last(ticks)), m)
  }

  /** The inputs of the replay of the same closed candles. */
  function ReplayInputs(inst: string, n: int, m: int, ticks: seq<Tick>): seq<Input>
    requires n >= 1 && m >= 1
  {
    Merged(Streamed(inst, m, ticks).emitted, Streamed(inst, n, ticks).emitted)
  }

  /** Whatever finer candle lies inside a closed coarse one, those before it opened earlier than
      the coarse one: no closed coarse candle is made of more than one finer candle. */
  predicate OneEach(fine: seq<Candle>, coarse: seq<Candle>, m: int)
    requires m >= 1
  {
    forall a, b, k :: 0 <= a < b < |fine| && 0 <= k < |coarse| && LiesIn(fine[b], m, coarse[k].openTime) ==>
      fine[a].openTime < coarse[k].openTime
  }

  // ---------------------------------------------------------------- merging one more candle

  lemma InsertAtEnd(s: seq<Input>, c: Candle)
    requires forall i :: 0 <= i < |s| ==> TimeOf(s[i]) <= c.openTime
    ensures InsertInput(s, Ltf(c)) == s + [Ltf(c)]
  {
  }

  lemma InsertBeforeLast(s: seq<Input>, h: Candle, c: Candle)
    requires c.openTime < h.openTime
    ensures InsertInput(s + [Htf(h)], Ltf(c)) == InsertInput(s, Ltf(c)) + [Htf(h)]
  {
    assert Front(s + [Htf(h)]) == s;
  }

  lemma MergedFine(coarse: seq<Candle>, fine: seq<Candle>, c: Candle)
    requires forall i :: 0 <= i < |coarse| ==> coarse[i].openTime <= c.openTime
    requires forall i :: 0 <= i < |fine| ==> fine[i].openTime <= c.openTime
    ensures Merged(coarse, fine + [c]) == Merged(coarse, fine) + [Ltf(c)]
  {
    assert Front(fine + [c]) == fine;
    MergedInputs(coarse, fine);
    var s := Merged(coarse, fine);
    forall i | 0 <= i < |s| ensures TimeOf(s[i]) <= c.openTime {
      assert s[i].c in coarse || s[i].c in fine;
    }
    InsertAtEnd(s, c);
  }

  lemma {:induction false} MergedCoarse(coarse: seq<Candle>, fine: seq<Candle>, h: Candle)
    requires forall i :: 0 <= i < |coarse| ==> coarse[i].openTime <= h.openTime
    requires forall i :: 0 <= i < |fine| ==> fine[i].openTime < h.openTime
    ensures Merged(coarse + [h], fine) == Merged(coarse, fine) + [Htf(h)]
  {
    if fine == [] {
      assert Front(coarse + [h]) == coarse;
      MergedInputs(coarse, []);
      var s := Merged(coarse, []);
      assert forall i :: 0 <= i < |s| ==> TimeOf(s[i]) <= h.openTime;
    } else {
      MergedCoarse(coarse, Front(fine), h);
      InsertBeforeLast(Merged(coarse, Front(fine)), h, Last(fine));
    }
  }

  // ---------------------------------------------------------------- one more tick

  /** The coarse candles handed out came before the one in progress, and both kinds carry their
      own timeframe. */
  ghost predicate Ordered(n: int, m: int, fine: AggState, coarse: AggState)
    requires m >= 1
  {
    && Nested(fine, coarse, m)
    && (coarse.current.None? ==> coarse.emitted == [])
    && (coarse.current.Some? ==>
          && coarse.current.value.timeframe == m && fine.current.value.timeframe == n
          && coarse.current.value.openTime <= fine.current.value.openTime
          && forall i :: 0 <= i < |coarse.emitted| ==> coarse.emitted[i].openTime < coarse.current.value.openTime)
  }

  lemma {:induction false} AlwaysOrdered(inst: string, n: int, m: int, ticks: seq<Tick>)
    requires Nest(n, m)
    ensures Ordered(n, m, Streamed(inst, n, ticks), Streamed(inst, m, ticks))
  {
    AlwaysNested(inst, n, m, ticks);
    if ticks != [] {
      var t := Last(ticks);
      AlwaysOrdered(inst, n, m, Front(ticks));
      var fine, coarse := Streamed(inst, n, ticks), Streamed(inst, m, ticks);
      BucketCharacterised(fine.current.value.openTime, m, BucketStart(fine.current.value.openTime, m));
    }
  }

  lemma StreamCloses(inst: string, n: int, s: AggState, t: Tick)
    requires n >= 1
    ensures var s' := AfterTick(inst, n, s, t);
      var closed := if |s'.emitted| > |s.emitted| && s.current.Some? then [s.current.value] else [];
      s'.emitted == s.emitted + closed && HandedOut((inst, n), s, TickFeed(t)) == closed
  {
  }

  /** What one more tick closes: nothing, a finer candle, or a coarse one and the finer one in it. */
  predicate Closes(fine: AggState, coarse: AggState, fine': AggState, coarse': AggState, closed: seq<Candle>) {
    || (closed == [] && fine'.emitted == fine.emitted && coarse'.emitted == coarse.emitted)
    || (&& fine.current.Some? && closed == [fine.current.value]
        && fine'.emitted == fine.emitted + closed && coarse'.emitted == coarse.emitted)
    || (&& fine.current.Some? && coarse.current.Some? && closed == [coarse.current.value, fine.current.value]
        && fine'.emitted == fine.emitted + [fine.current.value]
        && coarse'.emitted == coarse.emitted + [coarse.current.value])
  }

  lemma TickCloses(inst: string, n: int, m: int, ticks: seq<Tick>, t: Tick)
    requires Nest(n, m) && Nested(Streamed(inst, n, ticks), Streamed(inst, m, ticks), m)
    ensures var fine, coarse := Streamed(inst, n, ticks), Streamed(inst, m, ticks);
      Closes(fine, coarse, AfterTick(inst, n, fine, t), AfterTick(inst, m, coarse, t), ClosedOn(inst, [m, n], ticks, t))
  {
    var fine, coarse := Streamed(inst, n, ticks), Streamed(inst, m, ticks);
    StreamCloses(inst, n, fine, t);
    StreamCloses(inst, m, coarse, t);
    assert Front([m, n]) == [m] && Front([m]) == [];
    assert ClosedOn(inst, [], ticks, t) == [];
    if fine.current.Some? { BucketsMoveTogether(n, m, fine.current.value.openTime, t.time); }
  }

  /** Both orders and the condition, before and after one finer candle closes. */
  lemma FineCloses(m: int, f: seq<Candle>, c: seq<Candle>, last: Candle, b: int)
    requires m >= 1 && LiesIn(last, m, b) && b <= last.openTime
    requires forall i :: 0 <= i < |f| ==> f[i].openTime < last.openTime
    requires forall i :: 0 <= i < |c| ==> c[i].openTime < b
    ensures OneEach(f + [last], c, m) <==> OneEach(f, c, m)
    ensures Merged(c, f + [last]) == Merged(c, f) + [Ltf(last)]
  {
    MergedFine(c, f, last);
    if OneEach(f + [last], c, m) {
      assert forall i :: 0 <= i < |f| ==> (f + [last])[i] == f[i];
    }
  }

  /** A coarse candle closes with the only finer candle that opened with or after it. */
  lemma BothCloseAlone(m: int, f: seq<Candle>, c: seq<Candle>, last: Candle, h: Candle)
    requires m >= 1 && LiesIn(last, m, h.openTime) && h.openTime <= last.openTime
    requires forall i :: 0 <= i < |f| ==> f[i].openTime < h.openTime
    requires forall i :: 0 <= i < |c| ==> c[i].openTime < h.openTime
    ensures OneEach(f + [last], c + [h], m) <==> OneEach(f, c, m)
    ensures Merged(c + [h], f + [last]) == Merged(c, f) + [Htf(h), Ltf(last)]
  {
    MergedCoarse(c, f, h);
    MergedFine(c + [h], f, last);
    assert Merged(c, f) + [Htf(h)] + [Ltf(last)] == Merged(c, f) + [Htf(h), Ltf(last)];
    AloneIff(m, f, c, last, h);
  }

  lemma AloneIff(m: int, f: seq<Candle>, c: seq<Candle>, last: Candle, h: Candle)
    requires m >= 1 && LiesIn(last, m, h.openTime)
    requires forall i :: 0 <= i < |f| ==> f[i].openTime < h.openTime
    requires forall i :: 0 <= i < |c| ==> c[i].openTime < h.openTime
    ensures OneEach(f + [last], c + [h], m) <==> OneEach(f, c, m)
  {
    assert forall i :: 0 <= i < |f| ==> (f + [last])[i] == f[i];
    assert forall i :: 0 <= i < |c| ==> (c + [h])[i] == c[i];
    if OneEach(f + [last], c + [h], m) {
      forall a, b, k | 0 <= a < b < |f| && 0 <= k < |c| && LiesIn(f[b], m, c[k].openTime)
        ensures f[a].openTime < c[k].openTime
      {
        assert LiesIn((f + [last])[b], m, (c + [h])[k].openTime);
      }
    }
  }

  /** It closes with other finer candles already handed out: live order does not lead with it. */
  lemma BothCloseLate(live: seq<Input>, m: int, f: seq<Candle>, c: seq<Candle>, last: Candle, h: Candle, g: int)
    requires m >= 1 && LiesIn(last, m, h.openTime) && 0 <= g < |f| && f[g].openTime >= h.openTime
    requires Ltf(f[g]) in live
    ensures !OneEach(f + [last], c + [h], m)
    ensures live + [Htf(h), Ltf(last)] != Merged(c + [h], f + [last])
  {
    assert (f + [last])[g] == f[g] && (f + [last])[|f|] == last && (c + [h])[|c|] == h;
    MergeLeads(c + [h], f + [last]);
    var p :| 0 <= p < |live| && live[p] == Ltf(f[g]);
    var all := live + [Htf(h), Ltf(last)];
    assert all[p] == Ltf(f[g]) && all[|live|] == Htf(h);
    assert !HtfLeads(all);
  }

  predicate AllFed(live: seq<Input>, fine: seq<Candle>) { forall i :: 0 <= i < |fine| ==> Ltf(fine[i]) in live }

  lemma SameTail(a: seq<Input>, b: seq<Input>, x: seq<Input>)
    ensures a + x == b + x <==> a == b
  {
    assert (a + x)[..|a|] == a && (b + x)[..|b|] == b;
  }

  /** The two orders agree exactly when no coarse candle is made of two finer ones. */
  ghost predicate Agree(m: int, live: seq<Input>, f: seq<Candle>, c: seq<Candle>)
    requires m >= 1
  {
    AllFed(live, f) && (live == Merged(c, f) <==> OneEach(f, c, m))
  }

  lemma FineAgrees(m: int, live: seq<Input>, f: seq<Candle>, c: seq<Candle>, last: Candle, b: int)
    requires m >= 1 && Agree(m, live, f, c) && LiesIn(last, m, b) && b <= last.openTime
    requires forall i :: 0 <= i < |f| ==> f[i].openTime < last.openTime
    requires forall i :: 0 <= i < |c| ==> c[i].openTime < b
    ensures Agree(m, live + [Ltf(last)], f + [last], c)
  {
    FineCloses(m, f, c, last, b);
    SameTail(live, Merged(c, f), [Ltf(last)]);
  }

  lemma BothAgree(m: int, live: seq<Input>, f: seq<Candle>, c: seq<Candle>, last: Candle, h: Candle)
    requires m >= 1 && Agree(m, live, f, c) && LiesIn(last, m, h.openTime) && h.openTime <= last.openTime
    requires forall i :: 0 <= i < |c| ==> c[i].openTime < h.openTime
    ensures Agree(m, live + [Htf(h), Ltf(last)], f + [last], c + [h])
  {
    if g :| 0 <= g < |f| && f[g].openTime >= h.openTime {
      BothCloseLate(live, m, f, c, last, h, g);
    } else {
      BothCloseAlone(m, f, c, last, h);
      SameTail(live, Merged(c, f), [Htf(h), Ltf(last)]);
    }
  }

  lemma TickAgrees(n: int, m: int, live: seq<Input>, fine: AggState, coarse: AggState,
                   fine': AggState, coarse': AggState, closed: seq<Candle>)
    requires m >= 1 && n != m && Ordered(n, m, fine, coarse) && Closes(fine, coarse, fine', coarse', closed)
    requires Agree(m, live, fine.emitted, coarse.emitted)
    ensures Agree(m, live + AsInputs(closed, m), fine'.emitted, coarse'.emitted)
  {
    if closed == [] {
      assert live + AsInputs(closed, m) == live;
    } else if |closed| == 1 {
      assert AsInputs(closed, m) == [Ltf(fine.current.value)];
      FineAgrees(m, live, fine.emitted, coarse.emitted, fine.current.value, coarse.current.value.openTime);
    } else {
      assert AsInputs(closed, m) == [Htf(coarse.current.value), Ltf(fine.current.value)];
      BothAgree(m, live, fine.emitted, coarse.emitted, fine.current.value, coarse.current.value);
    }
  }

  lemma MoreTicks(inst: string, n: int, m: int, before: seq<Tick>, t: Tick)
    requires n >= 1 && m >= 1
    ensures var ticks := before + [t];
      && Streamed(inst, n, ticks) == AfterTick(inst, n, Streamed(inst, n, before), t)
      && Streamed(inst, m, ticks) == AfterTick(inst, m, Streamed(inst, m, before), t)
      && LiveInputs(inst, n, m, ticks) == LiveInputs(inst, n, m, before) + AsInputs(ClosedOn(inst, [m, n], before, t), m)
  {
    assert Front(before + [t]) == before;
  }

  lemma AgreeAfter(inst: string, n: int, m: int, before: seq<Tick>, t: Tick)
    requires Nest(n, m) && n != m
    requires Agree(m, LiveInputs(inst, n, m, before), Streamed(inst, n, before).emitted, Streamed(inst, m, before).emitted)
    ensures var ticks := before + [t];
      Agree(m, LiveInputs(inst, n, m, ticks), Streamed(inst, n, ticks).emitted, Streamed(inst, m, ticks).emitted)
  {
    var ticks, closed := before + [t], ClosedOn(inst, [m, n], before, t);
    var fine, coarse := Streamed(inst, n, before), Streamed(inst, m, before);
    var fine', coarse' := Streamed(inst, n, ticks), Streamed(inst, m, ticks);
    assert Ordered(n, m, fine, coarse) by { AlwaysOrdered(inst, n, m, before); }
    assert Closes(fine, coarse, fine', coarse', closed) by {
      MoreTicks(inst, n, m, before, t);
      TickCloses(inst, n, m, before, t);
    }
    assert LiveInputs(inst, n, m, ticks) == LiveInputs(inst, n, m, before) + AsInputs(closed, m) by {
      MoreTicks(inst, n, m, before, t);
    }
    TickAgrees(n, m, LiveInputs(inst, n, m, before), fine, coarse, fine', coarse', closed);
  }

  /** Live trading and a replay of the candles it closed feed a machine the same inputs in the same
      order exactly when no closed coarse candle is made of more than one finer one. */
  lemma {:induction false} OrdersAgreeIff(inst: string, n: int, m: int, ticks: seq<Tick>)
    requires Nest(n, m) && n != m
    ensures AllFed(LiveInputs(inst, n, m, ticks), Streamed(inst, n, ticks).emitted)
    ensures LiveInputs(inst, n, m, ticks) == ReplayInputs(inst, n, m, ticks)
       <==> OneEach(Streamed(inst, n, ticks).emitted, Streamed(inst, m, ticks).emitted, m)
  {
    if ticks != [] {
      assert ticks == Front(ticks) + [Last(ticks)];
      OrdersAgreeIff(inst, n, m, Front(ticks));
      AgreeAfter(inst, n, m, Front(ticks), Last(ticks));
    }
  }

  /** It decides trades: an entry candle inside a breaking 75-minute candle gives a signal in the
      order of the replay, which shows the break first, and none in the order of live trading. */
  lemma OrderDecides()
    ensures exists earlier ::
      var cfg, r := SampleConfig(2), SAMPLE_RECORD;
      && LtfStep(cfg, Run(cfg, r, earlier + [Htf(BREAKOUT)]), REENTRY).decision.Some?
      && LtfStep(cfg, Run(cfg, r, earlier), REENTRY).decision.None?
  {
    var cfg, r := SampleConfig(2), SAMPLE_RECORD;
    var earlier := [Ltf(CALM), Ltf(PLUNGE), Ltf(CRASH), Htf(FIRST_HTF)];
    BreakoutRun();
    assert earlier + [Htf(BREAKOUT)] == [Ltf(CALM), Ltf(PLUNGE), Ltf(CRASH), Htf(FIRST_HTF), Htf(BREAKOUT)];
    StepReads(cfg, r, [Ltf(CALM), Ltf(PLUNGE), Ltf(CRASH)], Htf(FIRST_HTF));
    assert [Ltf(CALM), Ltf(PLUNGE), Ltf(CRASH)] + [Htf(FIRST_HTF)] == earlier;
    SampleRunArms();
    assert During(ALL_DAY, REENTRY.openTime);
    StepSignalsIff(cfg, AfterBreakout(), REENTRY);
    StepSignalsIff(cfg, Run(cfg, r, earlier), REENTRY);
  }
}
