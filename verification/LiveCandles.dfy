/** The candles of whole live runs: what every machine was shown is the batch of its ticks, in the
    order of the replay exactly when no coarse candle is made of more than one finer one.
 */
module LiveCandles {
  import opened Basics
  import opened Buckets
  import opened Resampler
  import opened Aggregator
  import opened LiveTrading
  import opened LiveRuns
  import LiveOrder
  import ReplayOrder
  import SignalRuns
  import SignalStory
  import SignalState
  import Diagnostic

  // ---------------------------------------------------------------- one aggregator over a run

  /** What one event feeds the aggregators of an instrument. */
  function FeedsAt(g: Setting, s: System, e: LiveEvent, inst: string): seq<Feed> {
    match e
    case TickCame(symbol, price, ts, _, _, _) =>
      if symbol != inst || Tracked(g.w, s.live.session, symbol) then [] else [TickFeed(Tick(ts, price))]
    case Reconnected(instrument, raw, _) => if instrument == inst then [HistoryFeed(raw)] else []
    case _ => []
  }

  function Feeds(g: Setting, es: seq<LiveEvent>, inst: string): seq<Feed>
    requires Proper(g)
  {
    if es == [] then [] else Feeds(g, Front(es), inst) + FeedsAt(g, LiveRun(g, Front(es)), Last(es), inst)
  }

  function FedAll(k: Key, feeds: seq<Feed>): AggState
    requires k.1 >= 1
  {
    if feeds == [] then AggState(None, []) else Fed(k, FedAll(k, Front(feeds)), Last(feeds))
  }

  lemma FedMore(k: Key, feeds: seq<Feed>, more: seq<Feed>)
    requires k.1 >= 1 && |more| <= 1
    ensures FedAll(k, feeds + more) == if more == [] then FedAll(k, feeds) else Fed(k, FedAll(k, feeds), more[0])
  {
    if more == [] { assert feeds + more == feeds; } else { assert Front(feeds + more) == feeds; }
  }

  /** The candles of one instrument and timeframe, in order. */
  function OfKey(cs: seq<Candle>, k: Key): seq<Candle> {
    if cs == [] then [] else OfKey(Front(cs), k) + if (Last(cs).instrument, Last(cs).timeframe) == k then [Last(cs)] else []
  }

  lemma {:induction false} OfKeyConcat(a: seq<Candle>, b: seq<Candle>, k: Key)
    ensures OfKey(a + b, k) == OfKey(a, k) + OfKey(b, k)
  {
    if b == [] {
      assert a + b == a;
    } else {
      assert Front(a + b) == a + Front(b);
      OfKeyConcat(a, Front(b), k);
    }
  }

  predicate AllOf(cs: seq<Candle>, k: Key) {
    forall i :: 0 <= i < |cs| ==> (cs[i].instrument, cs[i].timeframe) == k
  }

  lemma {:induction false} OfKeyOwn(cs: seq<Candle>, own: Key, k: Key)
    requires AllOf(cs, own)
    ensures OfKey(cs, k) == if own == k then cs else []
  {
    if cs != [] {
      OfKeyOwn(Front(cs), own, k);
      assert cs[|cs| - 1] == Last(cs);
    }
  }

  /** The candle in progress is the aggregator's own. */
  predicate OwnCurrent(k: Key, s: AggState) {
    s.current.Some? ==> (s.current.value.instrument, s.current.value.timeframe) == k
  }

  lemma FeedsOwn(k: Key, s: AggState, feed: Feed)
    requires k.1 >= 1 && OwnCurrent(k, s)
    ensures OwnCurrent(k, Fed(k, s, feed)) && AllOf(HandedOut(k, s, feed), k)
  {
  }

  lemma OneTurn(views: map<Key, AggState>, keys: seq<Key>, inst: string, feed: Feed, k: Key)
    requires keys != [] && forall j :: j in keys ==> j in views && j.1 >= 1 && OwnCurrent(j, views[j])
    ensures OfKey(ClosedInOrder(views, keys, inst, feed), k) == OfKey(ClosedInOrder(views, Front(keys), inst, feed), k)
      + if Last(keys) == k && k.0 == inst then HandedOut(k, views[k], feed) else []
  {
    var last := Last(keys);
    assert last in keys;
    var more := if last.0 == inst then HandedOut(last, views[last], feed) else [];
    FeedsOwn(last, views[last], feed);
    OfKeyOwn(more, last, k);
    OfKeyConcat(ClosedInOrder(views, Front(keys), inst, feed), more, k);
  }

  /** Of the candles one feeding closes, those of a key are what its aggregator hands out. */
  lemma {:induction false} ClosedOfKey(views: map<Key, AggState>, keys: seq<Key>, inst: string, feed: Feed, k: Key)
    requires Distinct(keys) && forall j :: j in keys ==> j in views && j.1 >= 1 && OwnCurrent(j, views[j])
    ensures OfKey(ClosedInOrder(views, keys, inst, feed), k) ==
      if k in keys && k.0 == inst then HandedOut(k, views[k], feed) else []
  {
    if keys != [] {
      assert keys == Front(keys) + [Last(keys)];
      assert Last(keys) !in Front(keys) by {
        assert forall j :: 0 <= j < |keys| - 1 ==> Front(keys)[j] == keys[j];
      }
      ClosedOfKey(views, Front(keys), inst, feed, k);
      OneTurn(views, keys, inst, feed, k);
    }
  }

  /** An aggregator of a live run: a fold of what its instrument was fed, and its candles so far. */
  predicate Follows(g: Setting, es: seq<LiveEvent>, k: Key)
    requires Proper(g) && k in g.keys
  {
    var s := LiveRun(g, es).candles[k];
    && s == FedAll(k, Feeds(g, es, k.0)) && OwnCurrent(k, s)
    && OfKey(Handled(g, es), k) == s.emitted
  }

  lemma EventFollows(g: Setting, es: seq<LiveEvent>, e: LiveEvent, k: Key)
    requires Proper(g) && k in g.keys && forall j :: j in g.keys ==> Follows(g, es, j)
    ensures var s, s' := LiveRun(g, es), LiveStep(g.w, g.keys, LiveRun(g, es), e);
      var more := FeedsAt(g, s, e, k.0);
      && |more| <= 1
      && s'.candles[k] == (if more == [] then s.candles[k] else Fed(k, s.candles[k], more[0]))
      && OfKey(HandledAt(g, s, e), k) == (if more == [] then [] else HandedOut(k, s.candles[k], more[0]))
  {
    var s := LiveRun(g, es);
    match e
    case TickCame(symbol, price, ts, _, _, _) =>
      if !Tracked(g.w, s.live.session, symbol) {
        EachFedOnce(s.candles, g.keys, symbol, TickFeed(Tick(ts, price)));
        ClosedOfKey(s.candles, g.keys, symbol, TickFeed(Tick(ts, price)), k);
      }
    case Reconnected(inst, raw, _) =>
      EachFedOnce(s.candles, g.keys, inst, HistoryFeed(raw));
      ClosedOfKey(s.candles, g.keys, inst, HistoryFeed(raw), k);
    case _ =>
  }

  lemma FollowsMore(g: Setting, es: seq<LiveEvent>, e: LiveEvent, k: Key)
    requires Proper(g) && k in g.keys && forall j :: j in g.keys ==> Follows(g, es, j)
    ensures Follows(g, es + [e], k)
  {
    assert Front(es + [e]) == es;
    var s := LiveRun(g, es);
    var more := FeedsAt(g, s, e, k.0);
    EventFollows(g, es, e, k);
    FedMore(k, Feeds(g, es, k.0), more);
    OfKeyConcat(Handled(g, es), HandledAt(g, s, e), k);
    if more != [] { FeedsOwn(k, s.candles[k], more[0]); }
  }

  /** Every aggregator of every live run holds what its instrument was fed, and the candles handled
      of its key are those it has handed out. */
  lemma {:induction false} AllFollow(g: Setting, es: seq<LiveEvent>)
    requires Proper(g)
    ensures forall k :: k in g.keys ==> Follows(g, es, k)
  {
    if es != [] {
      AllFollow(g, Front(es));
      assert es == Front(es) + [Last(es)];
      forall k | k in g.keys ensures Follows(g, es, k) { FollowsMore(g, Front(es), Last(es), k); }
    }
  }

  // ---------------------------------------------------------------- what a machine was shown

  /** The machine of `k` is shown the candles of its two timeframes. */
  lemma {:induction false} InputsOfKeys(w: Wiring, cs: seq<Candle>, k: string)
    requires w.htf != w.primaryLtf
    ensures SignalState.HtfCandles(Inputs(w, cs, k)) == OfKey(cs, (k, w.htf))
    ensures SignalStory.LtfCandles(Inputs(w, cs, k)) == OfKey(cs, (k, w.primaryLtf))
  {
    if cs != [] {
      InputsOfKeys(w, Front(cs), k);
      var before, more := Inputs(w, Front(cs), k), if Last(cs).instrument == k then InputOf(w, Last(cs)) else [];
      if more == [] { assert before + more == before; } else { assert Front(before + more) == before; }
    }
  }

  /** The ticks of an instrument that was never reconnected. */
  predicate OnlyTicks(feeds: seq<Feed>) { forall i :: 0 <= i < |feeds| ==> feeds[i].TickFeed? }

  function TicksOf(feeds: seq<Feed>): (ticks: seq<Tick>)
    requires OnlyTicks(feeds)
    ensures |ticks| == |feeds| && forall i :: 0 <= i < |feeds| ==> ticks[i] == feeds[i].tick
  {
    seq(|feeds|, i requires 0 <= i < |feeds| => feeds[i].tick)
  }

  lemma {:induction false} FedTicks(k: Key, feeds: seq<Feed>)
    requires k.1 >= 1 && OnlyTicks(feeds)
    ensures FedAll(k, feeds) == AfterTicks(k.0, k.1, AggState(None, []), TicksOf(feeds))
  {
    if feeds != [] {
      FedTicks(k, Front(feeds));
      assert Front(TicksOf(feeds)) == TicksOf(Front(feeds));
    }
  }

  function InProgress(s: AggState): seq<Candle> { if s.current.None? then [] else [s.current.value] }

  lemma KeyIsBatch(g: Setting, es: seq<LiveEvent>, k: Key)
    requires Proper(g) && k in g.keys && OnlyTicks(Feeds(g, es, k.0))
    ensures OfKey(Handled(g, es), k) + InProgress(LiveRun(g, es).candles[k])
         == Resample(k.0, k.1, Accepted([], TicksOf(Feeds(g, es, k.0)), k.1))
  {
    AllFollow(g, es);
    FedTicks(k, Feeds(g, es, k.0));
    StreamEqualsBatch(k.0, k.1, TicksOf(Feeds(g, es, k.0)));
  }

  /** Over every live run without a reconnect of the instrument: the higher- and the lower-timeframe
      candles its machine was shown, each with the one in progress, are the batches of its on-time
      ticks, the candles a backtest of the same ticks would use. */
  lemma MachineSawTheBatch(g: Setting, es: seq<LiveEvent>, k: string)
    requires Proper(g) && (k, g.w.htf) in g.keys && (k, g.w.primaryLtf) in g.keys && OnlyTicks(Feeds(g, es, k))
    ensures var ins, ticks, candles := MachineInputs(g, es, k), TicksOf(Feeds(g, es, k)), LiveRun(g, es).candles;
      && SignalState.HtfCandles(ins) + InProgress(candles[(k, g.w.htf)])
         == Resample(k, g.w.htf, Accepted([], ticks, g.w.htf))
      && SignalStory.LtfCandles(ins) + InProgress(candles[(k, g.w.primaryLtf)])
         == Resample(k, g.w.primaryLtf, Accepted([], ticks, g.w.primaryLtf))
  {
    InputsOfKeys(g.w, Handled(g, es), k);
    KeyIsBatch(g, es, (k, g.w.htf));
    KeyIsBatch(g, es, (k, g.w.primaryLtf));
  }

  // ---------------------------------------------------------------- in which order

  /** The higher timeframe of `k` is registered before its entry timeframe. */
  predicate HtfFirst(w: Wiring, keys: seq<Key>, k: string) {
    forall i, j :: 0 <= i < |keys| && 0 <= j < |keys| && keys[i] == (k, w.primaryLtf) && keys[j] == (k, w.htf) ==> j < i
  }

  /** What the machine of `k` is shown of the candles one key hands out. */
  function Shown(w: Wiring, views: map<Key, AggState>, keys: seq<Key>, key: Key, feed: Feed): seq<SignalRuns.Input>
    requires forall j :: j in keys ==> j in views && j.1 >= 1
  {
    if key in keys then Inputs(w, HandedOut(key, views[key], feed), key.0) else []
  }

  lemma {:induction false} InputsOfOwn(w: Wiring, cs: seq<Candle>, own: Key, k: string)
    requires AllOf(cs, own) && (own.0 != k || (own.1 != w.htf && own.1 != w.primaryLtf))
    ensures Inputs(w, cs, k) == []
  {
    if cs != [] {
      assert cs[|cs| - 1] == Last(cs);
      InputsOfOwn(w, Front(cs), own, k);
    }
  }

  lemma TurnShows(w: Wiring, views: map<Key, AggState>, keys: seq<Key>, inst: string, feed: Feed, k: string)
    requires keys != [] && forall j :: j in keys ==> j in views && j.1 >= 1 && OwnCurrent(j, views[j])
    ensures var last := Last(keys);
      Inputs(w, ClosedInOrder(views, keys, inst, feed), k) == Inputs(w, ClosedInOrder(views, Front(keys), inst, feed), k)
        + if last.0 == inst && inst == k && (last.1 == w.htf || last.1 == w.primaryLtf) then Shown(w, views, keys, last, feed) else []
  {
    var last := Last(keys);
    assert last in keys;
    var more := if last.0 == inst then HandedOut(last, views[last], feed) else [];
    FeedsOwn(last, views[last], feed);
    InputsConcat(w, ClosedInOrder(views, Front(keys), inst, feed), more, k);
    if last.0 == inst && (inst != k || (last.1 != w.htf && last.1 != w.primaryLtf)) { InputsOfOwn(w, more, last, k); }
  }

  lemma ShownFront(w: Wiring, views: map<Key, AggState>, keys: seq<Key>, key: Key, feed: Feed)
    requires keys != [] && Distinct(keys) && forall j :: j in keys ==> j in views && j.1 >= 1
    ensures Distinct(Front(keys)) && forall j :: j in Front(keys) ==> j in keys
    ensures Shown(w, views, Front(keys), key, feed) == if key == Last(keys) then [] else Shown(w, views, keys, key, feed)
  {
    assert keys == Front(keys) + [Last(keys)];
    assert Last(keys) !in Front(keys) by { assert forall j :: 0 <= j < |keys| - 1 ==> Front(keys)[j] == keys[j]; }
  }

  lemma HtfStaysFirst(w: Wiring, keys: seq<Key>, k: string)
    requires keys != [] && HtfFirst(w, keys, k)
    ensures HtfFirst(w, Front(keys), k)
    ensures Last(keys) == (k, w.htf) ==> (k, w.primaryLtf) !in Front(keys)
  {
    assert forall j :: 0 <= j < |keys| - 1 ==> Front(keys)[j] == keys[j];
    assert keys[|keys| - 1] == Last(keys);
  }

  /** The coarse candles a feeding shows the machine, and then the finer ones. */
  function BothShown(w: Wiring, views: map<Key, AggState>, keys: seq<Key>, k: string, feed: Feed): seq<SignalRuns.Input>
    requires forall j :: j in keys ==> j in views && j.1 >= 1
  {
    Shown(w, views, keys, (k, w.htf), feed) + Shown(w, views, keys, (k, w.primaryLtf), feed)
  }

  lemma BothFront(w: Wiring, views: map<Key, AggState>, keys: seq<Key>, k: string, feed: Feed)
    requires keys != [] && Distinct(keys) && HtfFirst(w, keys, k) && w.htf != w.primaryLtf
    requires forall j :: j in keys ==> j in views && j.1 >= 1
    ensures forall j :: j in Front(keys) ==> j in keys
    ensures BothShown(w, views, keys, k, feed) == BothShown(w, views, Front(keys), k, feed)
      + if Last(keys) == (k, w.htf) || Last(keys) == (k, w.primaryLtf) then Shown(w, views, keys, Last(keys), feed) else []
  {
    HtfStaysFirst(w, keys, k);
    ShownFront(w, views, keys, (k, w.htf), feed);
    ShownFront(w, views, keys, (k, w.primaryLtf), feed);
  }

  /** One feeding shows the machine of its instrument the coarse candles and then the finer ones, and
      every other machine nothing. */
  lemma {:induction false} FeedShows(w: Wiring, views: map<Key, AggState>, keys: seq<Key>, inst: string, feed: Feed, k: string)
    requires Distinct(keys) && HtfFirst(w, keys, k) && w.htf != w.primaryLtf
    requires forall j :: j in keys ==> j in views && j.1 >= 1 && OwnCurrent(j, views[j])
    ensures Inputs(w, ClosedInOrder(views, keys, inst, feed), k) == if inst == k then BothShown(w, views, keys, k, feed) else []
  {
    if keys != [] {
      ShownFront(w, views, keys, Last(keys), feed);
      HtfStaysFirst(w, keys, k);
      FeedShows(w, views, Front(keys), inst, feed, k);
      TurnShows(w, views, keys, inst, feed, k);
      BothFront(w, views, keys, k, feed);
    }
  }

  lemma {:induction false} OwnInputs(w: Wiring, cs: seq<Candle>, k: Key)
    requires AllOf(cs, k) && w.htf != w.primaryLtf && (k.1 == w.htf || k.1 == w.primaryLtf)
    ensures Inputs(w, cs, k.0) == ReplayOrder.AsInputs(cs, w.htf)
  {
    if cs != [] {
      assert cs[|cs| - 1] == Last(cs);
      OwnInputs(w, Front(cs), k);
      assert ReplayOrder.AsInputs(cs, w.htf) == ReplayOrder.AsInputs(Front(cs), w.htf) + InputOf(w, Last(cs));
    }
  }

  lemma AsInputsConcat(a: seq<Candle>, b: seq<Candle>, m: int)
    ensures ReplayOrder.AsInputs(a + b, m) == ReplayOrder.AsInputs(a, m) + ReplayOrder.AsInputs(b, m)
  {
  }

  /** The settings under which an instrument trades: both timeframes registered, the higher first. */
  predicate BothRegistered(g: Setting, k: string) {
    Proper(g) && (k, g.w.htf) in g.keys && (k, g.w.primaryLtf) in g.keys && HtfFirst(g.w, g.keys, k)
  }

  lemma TickShows(g: Setting, es: seq<LiveEvent>, k: string, t: Tick)
    requires BothRegistered(g, k) && OnlyTicks(Feeds(g, es, k))
    ensures Inputs(g.w, ClosedInOrder(LiveRun(g, es).candles, g.keys, k, TickFeed(t)), k) ==
      ReplayOrder.AsInputs(LiveOrder.ClosedOn(k, [g.w.htf, g.w.primaryLtf], TicksOf(Feeds(g, es, k)), t), g.w.htf)
  {
    var views, ticks := LiveRun(g, es).candles, TicksOf(Feeds(g, es, k));
    var coarse, fine := (k, g.w.htf), (k, g.w.primaryLtf);
    AllFollow(g, es);
    assert forall j :: j in g.keys ==> Follows(g, es, j);
    FeedShows(g.w, views, g.keys, k, TickFeed(t), k);
    FedTicks(coarse, Feeds(g, es, k));
    FedTicks(fine, Feeds(g, es, k));
    var a, b := HandedOut(coarse, views[coarse], TickFeed(t)), HandedOut(fine, views[fine], TickFeed(t));
    FeedsOwn(coarse, views[coarse], TickFeed(t));
    FeedsOwn(fine, views[fine], TickFeed(t));
    OwnInputs(g.w, a, coarse);
    OwnInputs(g.w, b, fine);
    AsInputsConcat(a, b, g.w.htf);
    TwoTimeframes(k, g.w.htf, g.w.primaryLtf, ticks, t);
  }

  lemma TwoTimeframes(k: string, m: int, n: int, ticks: seq<Tick>, t: Tick)
    requires m >= 1 && n >= 1
    ensures LiveOrder.ClosedOn(k, [m, n], ticks, t) ==
      HandedOut((k, m), LiveOrder.Streamed(k, m, ticks), TickFeed(t)) + HandedOut((k, n), LiveOrder.Streamed(k, n, ticks), TickFeed(t))
  {
    assert Front([m, n]) == [m] && Front([m]) == [];
    assert LiveOrder.ClosedOn(k, [], ticks, t) == [];
    assert LiveOrder.ClosedOn(k, [m], ticks, t) == HandedOut((k, m), LiveOrder.Streamed(k, m, ticks), TickFeed(t));
  }

  /** One event shows the machine of `k` what it feeds the aggregators of `k`. */
  lemma EventShows(g: Setting, s: System, e: LiveEvent, k: string)
    requires Proper(g) && Wired(g.w, g.keys, s) && HtfFirst(g.w, g.keys, k)
    requires forall j :: j in g.keys ==> OwnCurrent(j, s.candles[j])
    ensures |FeedsAt(g, s, e, k)| <= 1
    ensures Inputs(g.w, HandledAt(g, s, e), k) == if FeedsAt(g, s, e, k) == [] then []
      else Inputs(g.w, ClosedInOrder(s.candles, g.keys, k, FeedsAt(g, s, e, k)[0]), k)
  {
    match e
    case TickCame(symbol, price, ts, _, _, _) =>
      if !Tracked(g.w, s.live.session, symbol) && symbol != k {
        FeedShows(g.w, s.candles, g.keys, symbol, TickFeed(Tick(ts, price)), k);
      }
    case Reconnected(inst, raw, _) =>
      if inst != k { FeedShows(g.w, s.candles, g.keys, inst, HistoryFeed(raw), k); }
    case _ =>
  }

  lemma OwnCandles(g: Setting, es: seq<LiveEvent>)
    requires Proper(g)
    ensures forall j :: j in g.keys ==> OwnCurrent(j, LiveRun(g, es).candles[j])
  {
    AllFollow(g, es);
    forall j | j in g.keys ensures OwnCurrent(j, LiveRun(g, es).candles[j]) { assert Follows(g, es, j); }
  }

  lemma OnlyTicksParts(feeds: seq<Feed>, more: seq<Feed>)
    requires OnlyTicks(feeds + more)
    ensures OnlyTicks(feeds) && OnlyTicks(more)
  {
    assert forall i :: 0 <= i < |feeds| ==> (feeds + more)[i] == feeds[i];
    assert forall i :: 0 <= i < |more| ==> (feeds + more)[|feeds| + i] == more[i];
  }

  /** One more event, from the live inputs so far. */
  lemma LiveAfter(g: Setting, es: seq<LiveEvent>, e: LiveEvent, k: string)
    requires BothRegistered(g, k) && OnlyTicks(Feeds(g, es, k) + FeedsAt(g, LiveRun(g, es), e, k))
    ensures OnlyTicks(Feeds(g, es, k))
    ensures var ticks, more := TicksOf(Feeds(g, es, k)), FeedsAt(g, LiveRun(g, es), e, k);
      && |more| <= 1 && (more != [] ==> more[0].TickFeed?)
      && ReplayOrder.LiveInputs(k, g.w.primaryLtf, g.w.htf, ticks) + Inputs(g.w, HandledAt(g, LiveRun(g, es), e), k)
         == ReplayOrder.LiveInputs(k, g.w.primaryLtf, g.w.htf, ticks + if more == [] then [] else [more[0].tick])
  {
    var feeds, more := Feeds(g, es, k), FeedsAt(g, LiveRun(g, es), e, k);
    OnlyTicksParts(feeds, more);
    OwnCandles(g, es);
    EventShows(g, LiveRun(g, es), e, k);
    var live := ReplayOrder.LiveInputs(k, g.w.primaryLtf, g.w.htf, TicksOf(feeds));
    if more == [] {
      assert live + [] == live && TicksOf(feeds) + [] == TicksOf(feeds);
    } else {
      TickShows(g, es, k, more[0].tick);
      LiveMore(k, g.w.primaryLtf, g.w.htf, TicksOf(feeds), more[0].tick);
    }
  }

  lemma TicksMore(feeds: seq<Feed>, more: seq<Feed>)
    requires OnlyTicks(feeds) && OnlyTicks(more) && |more| <= 1
    ensures OnlyTicks(feeds + more)
    ensures TicksOf(feeds + more) == TicksOf(feeds) + if more == [] then [] else [more[0].tick]
  {
  }

  lemma LiveMore(inst: string, n: int, m: int, ticks: seq<Tick>, t: Tick)
    requires n >= 1 && m >= 1
    ensures ReplayOrder.LiveInputs(inst, n, m, ticks + [t])
         == ReplayOrder.LiveInputs(inst, n, m, ticks) + ReplayOrder.AsInputs(LiveOrder.ClosedOn(inst, [m, n], ticks, t), m)
  {
    assert Front(ticks + [t]) == ticks;
  }

  /** What the machine of `k` is shown over a live run, in the order of the calls. */
  lemma {:induction false} MachineInputsAreLive(g: Setting, es: seq<LiveEvent>, k: string)
    requires BothRegistered(g, k) && OnlyTicks(Feeds(g, es, k))
    ensures MachineInputs(g, es, k) == ReplayOrder.LiveInputs(k, g.w.primaryLtf, g.w.htf, TicksOf(Feeds(g, es, k)))
  {
    if es != [] {
      var before, e := Front(es), Last(es);
      var feeds, more := Feeds(g, before, k), FeedsAt(g, LiveRun(g, before), e, k);
      assert Feeds(g, es, k) == feeds + more;
      LiveAfter(g, before, e, k);
      OnlyTicksParts(feeds, more);
      MachineInputsAreLive(g, before, k);
      InputsConcat(g.w, Handled(g, before), HandledAt(g, LiveRun(g, before), e), k);
      TicksMore(feeds, more);
    }
  }

  /** Live trading against the replay of the candles it closed, over every live run without a
      reconnect of the instrument: the machine is shown the same inputs in the same order exactly
      when no closed coarse candle is made of more than one finer one, and then ends in the state
      of the replayed machine. */
  lemma LiveIsReplayIff(g: Setting, es: seq<LiveEvent>, k: string)
    requires BothRegistered(g, k) && k in g.records && OnlyTicks(Feeds(g, es, k)) && LiveOrder.Nest(g.w.primaryLtf, g.w.htf)
    ensures var candles := LiveRun(g, es).candles;
      var coarse, fine := candles[(k, g.w.htf)].emitted, candles[(k, g.w.primaryLtf)].emitted;
      && (MachineInputs(g, es, k) == Diagnostic.Merged(coarse, fine) <==> ReplayOrder.OneEach(fine, coarse, g.w.htf))
      && (ReplayOrder.OneEach(fine, coarse, g.w.htf) ==>
            LiveRun(g, es).live.machines[k] == SignalRuns.Run(g.w.signals[k], g.records[k], Diagnostic.Merged(coarse, fine)))
  {
    var ticks := TicksOf(Feeds(g, es, k));
    AllFollow(g, es);
    FedTicks((k, g.w.htf), Feeds(g, es, k));
    FedTicks((k, g.w.primaryLtf), Feeds(g, es, k));
    MachineInputsAreLive(g, es, k);
    MachinesAreRuns(g, es, k);
    ReplayOrder.OrdersAgreeIff(k, g.w.primaryLtf, g.w.htf, ticks);
  }
}
