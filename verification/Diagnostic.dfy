/** The replay and the counters of backtest/run_diagnostic_backtest.py. */
module Diagnostic {
  import opened Basics
  import opened RollingBase
  import opened SignalMachine
  import opened SignalRuns
  import Patterns
  import opened Resampler
  import opened Aggregator
  import opened SpotTrades
  import opened ChunkedFetch

  // ---------------------------------------------------------------- merging the two timeframes

  function TimeOf(i: Input): int { if i.SlHit? then 0 else i.c.openTime }

  function InsertInput(s: seq<Input>, x: Input): seq<Input> {
    if s == [] || TimeOf(Last(s)) <= TimeOf(x) then s + [x] else InsertInput(Front(s), x) + [Last(s)]
  }

  /** The stable sort by open time of the higher-timeframe candles followed by the lower ones. */
  function Merged(htf: seq<Candle>, ltf: seq<Candle>): seq<Input> {
    if ltf != [] then InsertInput(Merged(htf, Front(ltf)), Ltf(Last(ltf)))
    else if htf != [] then InsertInput(Merged(Front(htf), []), Htf(Last(htf)))
    else []
  }

  /** In time order, and at equal times no lower-timeframe candle before a higher one. */
  predicate HtfLeads(s: seq<Input>) {
    forall i, j :: 0 <= i < j < |s| ==>
      TimeOf(s[i]) < TimeOf(s[j]) || (TimeOf(s[i]) == TimeOf(s[j]) && !(s[i].Ltf? && s[j].Htf?))
  }

  predicate NoStopOuts(s: seq<Input>) { forall i :: 0 <= i < |s| ==> !s[i].SlHit? }

  lemma AppendLeads(s: seq<Input>, x: Input)
    requires HtfLeads(s) && (s != [] ==> TimeOf(Last(s)) <= TimeOf(x))
    requires x.Ltf? || forall i :: 0 <= i < |s| ==> s[i].Htf?
    ensures HtfLeads(s + [x])
  {
    assert forall i :: 0 <= i < |s| ==> TimeOf(s[i]) <= TimeOf(Last(s));
  }

  lemma {:induction false} InsertMembers(s: seq<Input>, x: Input)
    ensures multiset(InsertInput(s, x)) == multiset(s) + multiset{x}
    ensures forall i :: 0 <= i < |InsertInput(s, x)| ==> InsertInput(s, x)[i] == x || InsertInput(s, x)[i] in s
  {
    if s != [] && TimeOf(Last(s)) > TimeOf(x) {
      InsertMembers(Front(s), x);
      assert s == Front(s) + [Last(s)];
    }
  }

  lemma {:induction false} InsertLeads(s: seq<Input>, x: Input)
    requires HtfLeads(s) && (x.Ltf? || forall i :: 0 <= i < |s| ==> s[i].Htf?)
    ensures HtfLeads(InsertInput(s, x))
  {
    if s != [] && TimeOf(Last(s)) > TimeOf(x) {
      InsertLeads(Front(s), x);
      InsertMembers(Front(s), x);
      InsertThenLast(s, x, InsertInput(Front(s), x));
    } else {
      AppendLeads(s, x);
    }
  }

  lemma InsertThenLast(s: seq<Input>, x: Input, f: seq<Input>)
    requires s != [] && HtfLeads(s) && HtfLeads(f) && TimeOf(x) < TimeOf(Last(s))
    requires forall i :: 0 <= i < |f| ==> f[i] == x || f[i] in Front(s)
    ensures HtfLeads(f + [Last(s)])
  {
    forall i | 0 <= i < |f|
      ensures TimeOf(f[i]) < TimeOf(Last(s)) || (TimeOf(f[i]) == TimeOf(Last(s)) && !(f[i].Ltf? && Last(s).Htf?))
    {
      if f[i] != x {
        var k :| 0 <= k < |Front(s)| && Front(s)[k] == f[i];
        assert s[k] == f[i];
      }
    }
  }

  function Tagged(htf: seq<Candle>, ltf: seq<Candle>): seq<Input> {
    seq(|htf|, i requires 0 <= i < |htf| => Htf(htf[i])) + seq(|ltf|, i requires 0 <= i < |ltf| => Ltf(ltf[i]))
  }

  lemma TaggedLtf(htf: seq<Candle>, ltf: seq<Candle>)
    requires ltf != []
    ensures Tagged(htf, ltf) == Tagged(htf, Front(ltf)) + [Ltf(Last(ltf))]
  {
  }

  lemma TaggedHtf(htf: seq<Candle>)
    requires htf != []
    ensures Tagged(htf, []) == Tagged(Front(htf), []) + [Htf(Last(htf))]
  {
  }

  lemma {:induction false} MergePermutes(htf: seq<Candle>, ltf: seq<Candle>)
    ensures multiset(Merged(htf, ltf)) == multiset(Tagged(htf, ltf))
    decreases |htf| + |ltf|
  {
    if ltf != [] {
      MergePermutes(htf, Front(ltf));
      InsertMembers(Merged(htf, Front(ltf)), Ltf(Last(ltf)));
      TaggedLtf(htf, ltf);
    } else if htf != [] {
      MergePermutes(Front(htf), []);
      InsertMembers(Merged(Front(htf), []), Htf(Last(htf)));
      TaggedHtf(htf);
    }
  }

  lemma {:induction false} HtfOnly(htf: seq<Candle>)
    ensures HtfLeads(Merged(htf, [])) && forall i :: 0 <= i < |Merged(htf, [])| ==> Merged(htf, [])[i].Htf?
  {
    if htf != [] {
      HtfOnly(Front(htf));
      InsertLeads(Merged(Front(htf), []), Htf(Last(htf)));
      InsertMembers(Merged(Front(htf), []), Htf(Last(htf)));
    }
  }

  lemma {:induction false} MergedInOrder(htf: seq<Candle>, ltf: seq<Candle>)
    ensures HtfLeads(Merged(htf, ltf))
  {
    if ltf != [] {
      MergedInOrder(htf, Front(ltf));
      InsertLeads(Merged(htf, Front(ltf)), Ltf(Last(ltf)));
    } else {
      HtfOnly(htf);
    }
  }

  /** The merged stream holds every candle once and each higher-timeframe candle precedes every
      lower-timeframe candle that opens with or after it: the replay shows the machine a
      75-minute candle before all the candles it is made of, live trading only before the last. */
  lemma MergeLeads(htf: seq<Candle>, ltf: seq<Candle>)
    ensures HtfLeads(Merged(htf, ltf)) && multiset(Merged(htf, ltf)) == multiset(Tagged(htf, ltf))
    ensures forall i, j ::
      (&& 0 <= i < |Merged(htf, ltf)| && 0 <= j < |Merged(htf, ltf)|
       && Merged(htf, ltf)[i].Htf? && Merged(htf, ltf)[j].Ltf?
       && Merged(htf, ltf)[i].c.openTime <= Merged(htf, ltf)[j].c.openTime) ==> i < j
  {
    MergedInOrder(htf, ltf);
    MergePermutes(htf, ltf);
  }

  lemma MergedInputs(htf: seq<Candle>, ltf: seq<Candle>)
    ensures forall i :: 0 <= i < |Merged(htf, ltf)| ==>
      var x := Merged(htf, ltf)[i]; (x.Htf? && x.c in htf) || (x.Ltf? && x.c in ltf)
  {
    MergePermutes(htf, ltf);
    var m, t := Merged(htf, ltf), Tagged(htf, ltf);
    forall i | 0 <= i < |m| ensures (m[i].Htf? && m[i].c in htf) || (m[i].Ltf? && m[i].c in ltf) {
      assert m[i] in multiset(t);
      var k :| 0 <= k < |t| && t[k] == m[i];
      if k < |htf| { assert t[k] == Htf(htf[k]); } else { assert t[k] == Ltf(ltf[k - |htf|]); }
    }
  }

  // ---------------------------------------------------------------- replay and counters

  function FalseSweeps(es: seq<Event>): nat { Count(es, RejectedK) + Count(es, FilteredK) }

  /** Why a sweep was false. */
  datatype Cause = Rejection(reject: RejectReason) | Filter(filter: Patterns.FilterReason)

  function CauseOf(e: Event): Option<Cause> {
    match e
    case SweepRejected(_, reason) => Some(Rejection(reason))
    case SignalFiltered(_, filter) => Some(Filter(filter))
    case _ => None
  }

  /** The causes of the false sweeps, in the order of the events. */
  function Causes(es: seq<Event>): seq<Cause> {
    if es == [] then [] else Causes(Front(es)) + if CauseOf(Last(es)).Some? then [CauseOf(Last(es)).value] else []
  }

  lemma CausesMore(es: seq<Event>, e: Event)
    ensures Causes(es + [e]) == Causes(es) + if CauseOf(e).Some? then [CauseOf(e).value] else []
  {
    assert Front(es + [e]) == es;
  }

  /** Every false sweep has one cause. */
  lemma {:induction false} OneCauseEach(es: seq<Event>)
    ensures |Causes(es)| == FalseSweeps(es)
  {
    if es != [] {
      OneCauseEach(Front(es));
      assert es == Front(es) + [Last(es)];
      CountConcat(Front(es), [Last(es)], RejectedK);
      CountConcat(Front(es), [Last(es)], FilteredK);
      CountsOfOne(Last(es));
    }
  }

  function Tallied<T(!new)>(counts: map<T, nat>, k: T): nat { if k in counts then counts[k] else 0 }

  function Bump<T(!new)>(counts: map<T, nat>, k: T): (r: map<T, nat>)
    ensures forall j :: Tallied(r, j) == Tallied(counts, j) + if j == k then 1 else 0
  {
    counts[k := Tallied(counts, k) + 1]
  }

  lemma CountMore(es: seq<Event>, e: Event)
    ensures forall k :: Count(es + [e], k) == Count(es, k) + if KindOf(e) == k then 1 else 0
  {
    forall k ensures Count(es + [e], k) == Count(es, k) + if KindOf(e) == k then 1 else 0 {
      CountConcat(es, [e], k);
      CountOne(e, k);
    }
  }

  datatype Tally = Tally(stages: map<Kind, nat>, falseSweeps: nat, breakdown: map<Cause, nat>)

  /** The counters count: every stage, the false sweeps, and each of their causes. */
  ghost predicate Counts(t: Tally, es: seq<Event>) {
    && (forall k :: Tallied(t.stages, k) == Count(es, k))
    && t.falseSweeps == FalseSweeps(es)
    && (forall x :: Tallied(t.breakdown, x) == multiset(Causes(es))[x])
  }

  /** The on_event hook: one event into the counters. */
  method TallyEvent(t: Tally, e: Event, ghost es: seq<Event>) returns (t': Tally)
    requires Counts(t, es)
    ensures Counts(t', es + [e])
  {
    CountMore(es, e);
    CausesMore(es, e);
    t' := t.(stages := Bump(t.stages, KindOf(e)));
    var cause := CauseOf(e);
    if cause.Some? {
      t' := t'.(falseSweeps := t.falseSweeps + 1, breakdown := Bump(t.breakdown, cause.value));
    }
  }

  /** The hook folded over what the machine reported. */
  method TallyStages(es: seq<Event>) returns (t: Tally)
    ensures Counts(t, es)
  {
    t := Tally(map[], 0, map[]);
    for i := 0 to |es|
      invariant Counts(t, es[..i])
    {
      assert es[..i + 1] == es[..i] + [es[i]];
      t := TallyEvent(t, es[i], es[..i]);
    }
    assert es[..|es|] == es;
  }

  /** Feeds the merged candles to the machine, collecting its signals. */
  method Replay(machine: InstrumentStateMachine, merged: seq<Input>, ghost r: InstrumentState)
    returns (signals: seq<SignalDecision>)
    requires machine.Valid() && machine.View() == Fresh(r) && machine.events == []
    requires NoStopOuts(merged) && forall i :: 0 <= i < |merged| && merged[i].Htf? ==> merged[i].c.timeframe == 75
    modifies machine, machine.store, machine.rollingBase, machine.retest
    ensures machine.Valid() && machine.View() == Run(machine.cfg, r, merged)
    ensures machine.events == Events(machine.cfg, r, merged)
    ensures signals == Decisions(machine.cfg, r, merged)
  {
    signals := [];
    for k := 0 to |merged|
      invariant machine.Valid() && machine.View() == Run(machine.cfg, r, merged[..k])
      invariant machine.events == Events(machine.cfg, r, merged[..k])
      invariant signals == Decisions(machine.cfg, r, merged[..k])
    {
      assert Front(merged[..k + 1]) == merged[..k] && Last(merged[..k + 1]) == merged[k];
      match merged[k] {
        case Htf(c) => machine.OnHtfCandleClose(c);
        case Ltf(c) =>
          var decision := machine.OnLtfCandleClose(c);
          if decision.Some? {
            signals := signals + [decision.value];
          }
      }
    }
    assert merged[..|merged|] == merged;
  }

  method SnapshotAll(cs: seq<LiveCandle>) returns (vs: seq<Candle>)
    ensures vs == Views(cs)
  {
    vs := [];
    for i := 0 to |cs|
      invariant vs == Views(cs)[..i]
    {
      var v := cs[i].Snapshot();
      vs := vs + [v];
    }
  }

  /** One simulated trade a signal, each on the candles after its entry. */
  method SimulateAll(signals: seq<SignalDecision>, ltf: seq<Candle>, terms: Terms) returns (trades: seq<SimulatedTrade>)
    ensures |trades| == |signals| && forall t :: t in trades ==> fresh(t)
    ensures forall i :: 0 <= i < |signals| ==> trades[i].Summary() == Simulate(signals[i], ltf, terms)
  {
    trades := [];
    for i := 0 to |signals|
      invariant |trades| == i && forall t :: t in trades ==> fresh(t)
      invariant forall j :: 0 <= j < i ==> trades[j].Summary() == Simulate(signals[j], ltf, terms)
    {
      var s := signals[i];
      ForwardFilterIsRedundant(LevelsOf(s, terms), ltf, None);
      var trade := SimulateSpotTrade(s, After(ltf, s.entry.openTime), terms);
      trades := trades + [trade];
    }
  }

  datatype Report = Report(signals: seq<SignalDecision>, tally: Tally, trades: seq<SimulatedTrade>)

  function Fetched(broker: Broker, from: int, upto: int): seq<Bar> { SortByTime(AllRows(broker, Windows(from, upto))) }

  /** Every sweep the run detected is a signal, a false sweep, a stale retest or still pending. */
  predicate Accounted(t: Tally, signals: nat, end: Machine) {
    && Tallied(t.stages, SweptK) == signals + t.falseSweeps + Tallied(t.stages, StaleK) + Pending(end)
    && Tallied(t.stages, ArmedK) == Tallied(t.stages, TriggeredK) + Tallied(t.stages, StaleK) + ArmedZones(end)
    && Tallied(t.stages, PassedK) == signals
  }

  /** A fresh machine shown the merged candles, and the counters of its events. */
  method ReplayAndTally(cfg: Config, htf: seq<Candle>, ltf: seq<Candle>) returns (signals: seq<SignalDecision>, tally: Tally)
    requires forall i :: 0 <= i < |htf| ==> htf[i].timeframe == 75
    ensures var r := FreshState(cfg.instrument);
      && signals == Decisions(cfg, r, Merged(htf, ltf)) && Counts(tally, Events(cfg, r, Merged(htf, ltf)))
      && Accounted(tally, |signals|, Run(cfg, r, Merged(htf, ltf)))
  {
    var store := new StateStore(map[]);
    var machine := new InstrumentStateMachine(cfg, store);
    var merged := Merged(htf, ltf);
    MergedInputs(htf, ltf);
    signals := Replay(machine, merged, FreshState(cfg.instrument));
    tally := TallyStages(machine.events);
    SweepsConserved(cfg, FreshState(cfg.instrument), merged);
  }

  /** The report on fetched rows: the signals of a fresh machine on the merged candles of both
      timeframes, its counters, which account for every sweep, and each signal's simulated trade. */
  method ReportOn(cfg: Config, rows: seq<Bar>, terms: Terms) returns (report: Report)
    ensures var r, ins := FreshState(cfg.instrument), Merged(Resample(cfg.instrument, 75, rows), Resample(cfg.instrument, 3, rows));
      && report.signals == Decisions(cfg, r, ins)
      && Counts(report.tally, Events(cfg, r, ins))
      && Accounted(report.tally, |report.signals|, Run(cfg, r, ins))
    ensures var ltf, trades := Resample(cfg.instrument, 3, rows), report.trades;
      && |trades| == |report.signals|
      && forall i :: 0 <= i < |trades| ==> trades[i].Summary() == Simulate(report.signals[i], ltf, terms)
  {
    var ltfCandles := ResampleCandles(rows, cfg.instrument, 3);
    var htfCandles := ResampleCandles(rows, cfg.instrument, 75);
    var ltf := SnapshotAll(ltfCandles);
    var htf := SnapshotAll(htfCandles);
    var signals, tally := ReplayAndTally(cfg, htf, ltf);
    var trades := SimulateAll(signals, ltf, terms);
    return Report(signals, tally, trades);
  }

  lemma FetchedIsAnswered(broker: Broker, from: int, upto: int)
    ensures var rows := Fetched(broker, from, upto);
      && Chronological(rows) && multiset(rows) == AllAnswered(broker, Windows(from, upto))
      && (rows == [] <==> AllAnswered(broker, Windows(from, upto)) == multiset{})
  {
    var rows := Fetched(broker, from, upto);
    SortIsStable(AllRows(broker, Windows(from, upto)));
    RowsAreAnswered(broker, Windows(from, upto));
    if rows != [] { assert rows[0] in multiset(rows); }
  }

  /** The whole diagnostic run, from the broker's answers to the report: nothing when no window
      answered with a row, else the report on all rows answered, in time order. */
  method RunDiagnostic(cfg: Config, broker: Broker, from: int, upto: int, terms: Terms) returns (report: Option<Report>)
    ensures report.None? <==> AllAnswered(broker, Windows(from, upto)) == multiset{}
    ensures var rows := Fetched(broker, from, upto);
      Chronological(rows) && multiset(rows) == AllAnswered(broker, Windows(from, upto))
    ensures report.Some? ==>
      var r, rows := FreshState(cfg.instrument), Fetched(broker, from, upto);
      var ins := Merged(Resample(cfg.instrument, 75, rows), Resample(cfg.instrument, 3, rows));
      && report.value.signals == Decisions(cfg, r, ins)
      && Counts(report.value.tally, Events(cfg, r, ins))
      && Accounted(report.value.tally, |report.value.signals|, Run(cfg, r, ins))
    ensures report.Some? ==>
      var ltf, trades := Resample(cfg.instrument, 3, Fetched(broker, from, upto)), report.value.trades;
      && |trades| == |report.value.signals|
      && forall i :: 0 <= i < |trades| ==> trades[i].Summary() == Simulate(report.value.signals[i], ltf, terms)
  {
    var rows, _, _ := FetchChunked(broker, from, upto);
    FetchedIsAnswered(broker, from, upto);
    if rows == [] { return None; }
    var r := ReportOn(cfg, rows, terms);
    return Some(r);
  }
}
