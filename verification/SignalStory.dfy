/** Where signals come from: for every run, the sweep, the gap and the entry candle behind a
    signal, and how long the search from sweep to armed retest can take.
 */
module SignalStory {
  import opened Basics
  import opened Patterns
  import opened RollingBase
  import opened Retest
  import opened SignalMachine
  import opened SignalRuns

  predicate Emits(es: seq<Event>, k: Kind) { Count(es, k) > 0 }

  /** A sweep's life ends here. */
  predicate Disposes(es: seq<Event>) {
    Emits(es, PassedK) || Emits(es, FilteredK) || Emits(es, StaleK) || Emits(es, RejectedK)
  }

  // ---------------------------------------------------------------- what a step can do

  /** The newest of the remembered candles is a displacement and completes the gap `fvg`. */
  predicate Confirms(cfg: Config, history: seq<Candle>, c: Candle, fvg: FairValueGap) {
    |history| >= 3 && Displaced(cfg, history, c).Some? && NewestGap(history) == Some(fvg)
  }

  /** Judging the newest candle keeps the pending sweep or rejects it, and arms at most its gap,
      and that only when it is a displacement. */
  predicate JudgeEffect(cfg: Config, m: Machine, c: Candle, r: StepResult)
    requires m.history != []
  {
    var m' := r.machine;
    && m'.history == m.history && m'.record == m.record && m'.engine == m.engine
    && !Emits(r.events, SweptK) && !Emits(r.events, PassedK) && !Emits(r.events, FilteredK)
    && !Emits(r.events, StaleK) && r.decision.None?
    && (m'.pending.Some? ==> m'.pending == m.pending && m'.checked == m.checked && !Emits(r.events, RejectedK))
    && (Emits(r.events, ArmedK) ==>
          && m'.pending.Some? && m'.trigger.Some? && m'.trigger == Watching(m'.trigger.value.fvg)
          && Confirms(cfg, m.history, c, m'.trigger.value.fvg))
    && (!Emits(r.events, ArmedK) ==> m'.trigger == m.trigger)
  }

  lemma JudgeDoes(cfg: Config, m: Machine, c: Candle)
    requires m.history != [] && m.pending.Some?
    ensures JudgeEffect(cfg, m, c, Judge(cfg, m, c))
  {
    var r := Judge(cfg, m, c);
    if |r.events| == 1 {
      assert r.events == [r.events[0]];
      OneEvent(r.events, r.events[0]);
    } else {
      JudgeGap(cfg, m, c);
    }
  }

  /** The displacement was confirmed and its gap decided. */
  lemma JudgeGap(cfg: Config, m: Machine, c: Candle)
    requires m.history != [] && m.pending.Some? && |Judge(cfg, m, c).events| != 1
    ensures JudgeEffect(cfg, m, c, Judge(cfg, m, c))
  {
    var r := Judge(cfg, m, c);
    assert r.events == [r.events[0]] + [r.events[1]];
    TwoEvents(r.events, r.events[0], r.events[1]);
  }

  lemma OneEvent(es: seq<Event>, e: Event)
    requires es == [e]
    ensures forall k :: Emits(es, k) <==> KindOf(e) == k
  {
    CountsOfOne(e);
  }

  lemma TwoEvents(es: seq<Event>, e: Event, f: Event)
    requires es == [e] + [f]
    ensures forall k :: Emits(es, k) <==> KindOf(e) == k || KindOf(f) == k
  {
    CountsOfCons(e, [f]);
    CountsOfOne(f);
  }

  /** With no retest armed: a sweep may be found, judged, and its zone armed. */
  predicate SearchEffect(cfg: Config, m: Machine, base: Base, c: Candle, r: StepResult)
    requires m.history != []
  {
    var m' := r.machine;
    && m'.history == m.history && m'.record == m.record && m'.engine == m.engine
    && !Emits(r.events, PassedK) && !Emits(r.events, FilteredK) && !Emits(r.events, StaleK)
    && r.decision.None?
    && (m.pending.Some? ==> !Emits(r.events, SweptK))
    && (m.pending.Some? && m'.pending.Some? ==> m'.pending == m.pending && m'.checked == m.checked + 1)
    && (m.pending.None? && m'.pending.Some? ==>
          Emits(r.events, SweptK) && m'.pending == DetectSweep(c, base.high, base.low) && m'.checked == 0)
    && (m'.pending.Some? ==> !Emits(r.events, RejectedK))
    && (Emits(r.events, ArmedK) ==>
          && m'.pending.Some? && m'.trigger.Some? && m'.trigger == Watching(m'.trigger.value.fvg)
          && Confirms(cfg, m.history, c, m'.trigger.value.fvg))
    && (!Emits(r.events, ArmedK) ==> m'.trigger == m.trigger)
  }

  lemma SearchDoes(cfg: Config, m: Machine, base: Base, c: Candle)
    requires m.history != []
    ensures SearchEffect(cfg, m, base, c, Search(cfg, m, base, c))
  {
    var sweep := DetectSweep(c, base.high, base.low);
    if m.pending.Some? {
      SearchPending(cfg, m, base, c);
    } else if sweep.Some? {
      SearchNew(cfg, m, base, c, sweep.value);
    }
  }

  lemma SearchPending(cfg: Config, m: Machine, base: Base, c: Candle)
    requires m.history != [] && m.pending.Some?
    ensures SearchEffect(cfg, m, base, c, Search(cfg, m, base, c))
  {
    var m1 := m.(checked := m.checked + 1);
    var r := Judge(cfg, m1, c);
    assert JudgeEffect(cfg, m1, c, r) by { JudgeDoes(cfg, m1, c); }
    assert Search(cfg, m, base, c) == r;
  }

  lemma SearchNew(cfg: Config, m: Machine, base: Base, c: Candle, s: SweepEvent)
    requires m.history != [] && m.pending.None? && DetectSweep(c, base.high, base.low) == Some(s)
    ensures SearchEffect(cfg, m, base, c, Search(cfg, m, base, c))
  {
    var m1 := m.(pending := Some(s), sweepCandle := Some(c), checked := 0);
    var r := Judge(cfg, m1, c);
    assert JudgeEffect(cfg, m1, c, r) by { JudgeDoes(cfg, m1, c); }
    var e := SweepDetected(c.openTime, s.direction, s.level, s.pierce);
    assert Search(cfg, m, base, c) == r.(events := [e] + r.events);
    CountsOfCons(e, r.events);
  }

  /** With a retest armed: the watcher steps, and the sweep stays exactly while it is armed. */
  predicate WatchEffect(cfg: Config, m: Machine, c: Candle, r: StepResult) {
    var m' := r.machine;
    && m'.history == m.history && m'.record == m.record && m'.engine == m.engine
    && (m'.trigger, Emits(r.events, TriggeredK)) == CheckStep(m.trigger, c)
    && !Emits(r.events, SweptK) && !Emits(r.events, ArmedK)
    && (m'.pending.Some? <==> IsArmed(m'.trigger))
    && (m'.pending.Some? ==> m'.pending == m.pending && !Disposes(r.events))
    && (r.decision.Some? ==>
          && m.pending.Some? && m.trigger.Some? && Emits(r.events, TriggeredK)
          && var d := r.decision.value;
             && d.instrument == cfg.instrument && d.sweep == m.pending.value
             && d.direction == d.sweep.direction
             && d.fvg == m.trigger.value.fvg && d.entry == c
             && d.structuralSl == StructuralSl(cfg, d.sweep)
             && TradingWindow(c.openTime, cfg.blocked, cfg.probable).0
             && m.engine.base.Some?
             && BiasAligned(d.direction, HtfBias(m.engine.base.value.high, m.engine.base.value.low, c.close)).0)
  }

  lemma WatchDoes(cfg: Config, m: Machine, c: Candle)
    requires Inv(m) && IsArmed(m.trigger)
    ensures WatchEffect(cfg, m, c, WatchRetest(cfg, m, c))
  {
    var (trigger, fired) := CheckStep(m.trigger, c);
    if fired {
      var r := Finalize(cfg, m.(trigger := trigger), c);
      assert |r.events| == 1;
      CountsOfOne(r.events[0]);
      assert r.events == [r.events[0]];
      CountsOfCons(RetestTriggered(c.openTime), r.events);
    } else if !IsArmed(trigger) {
      CountsOfOne(RetestStale(c.openTime));
    }
  }

  /** Blocked, or without a base, and nothing armed: the candle is only remembered. */
  predicate Idle(m: Machine, c: Candle) {
    !IsArmed(m.trigger) && (VoidReset(m.record, c).voidBlocked || m.engine.base.None?)
  }

  /** While BLOCKED with no retest armed, no sweep or arm begins and no signal is given. */
  lemma BlockedIsIdle(cfg: Config, m: Machine, c: Candle)
    requires Idle(m, c)
    ensures LtfStep(cfg, m, c) ==
      StepResult(m.(history := Suffix(m.history + [c], HISTORY_LIMIT), record := VoidReset(m.record, c)), [], None)
  {
  }

  // ---------------------------------------------------------------- reading a run

  function LtfCandles(ins: seq<Input>): seq<Candle> {
    if ins == [] then []
    else if Last(ins).Ltf? then LtfCandles(Front(ins)) + [Last(ins).c]
    else LtfCandles(Front(ins))
  }

  /** The lower-timeframe candles after position `j`. */
  function LtfAfter(ins: seq<Input>, j: int): seq<Candle> {
    if |ins| <= j + 1 || ins == [] then []
    else if Last(ins).Ltf? then LtfAfter(Front(ins), j) + [Last(ins).c]
    else LtfAfter(Front(ins), j)
  }

  /** How many candles after position `i` met an unblocked instrument. */
  function UnblockedAfter(cfg: Config, r: InstrumentState, ins: seq<Input>, i: int): nat {
    if |ins| <= i + 1 || ins == [] then 0
    else
      var last := Last(ins);
      UnblockedAfter(cfg, r, Front(ins), i) +
      if last.Ltf? && !VoidReset(Run(cfg, r, Front(ins)).record, last.c).voidBlocked then 1 else 0
  }

  /** The position of the latest step that emitted an event of kind `k`, or -1. */
  function Latest(cfg: Config, r: InstrumentState, ins: seq<Input>, k: Kind): (i: int)
    ensures -1 <= i < |ins|
  {
    if ins == [] then -1
    else if Emits(Step(cfg, Run(cfg, r, Front(ins)), Last(ins)).events, k) then |ins| - 1
    else Latest(cfg, r, Front(ins), k)
  }

  lemma {:induction false} HistoryIsRecent(cfg: Config, r: InstrumentState, ins: seq<Input>)
    ensures Run(cfg, r, ins).history == Suffix(LtfCandles(ins), 30)
  {
    if ins != [] {
      HistoryIsRecent(cfg, r, Front(ins));
      var m, i := Run(cfg, r, Front(ins)), Last(ins);
      if i.Ltf? {
        LtfFrame(cfg, m, i.c);
        SuffixGrows(LtfCandles(Front(ins)), i.c, HISTORY_LIMIT);
      }
    }
  }

  lemma SuffixGrows(all: seq<Candle>, c: Candle, n: nat)
    requires n >= 1
    ensures Suffix(Suffix(all, n) + [c], n) == Suffix(all + [c], n)
  {
  }

  lemma LtfFrame(cfg: Config, m: Machine, c: Candle)
    ensures var m' := LtfStep(cfg, m, c).machine;
      && m'.history == Suffix(m.history + [c], HISTORY_LIMIT)
      && m'.record == VoidReset(m.record, c) && m'.engine == m.engine
  {
    var h := Suffix(m.history + [c], HISTORY_LIMIT);
    var m1 := m.(history := h, record := VoidReset(m.record, c));
    if IsArmed(m1.trigger) {
    } else if !m1.record.voidBlocked && m1.engine.base.Some? {
      SearchDoes(cfg, m1, m1.engine.base.value, c);
      assert LtfStep(cfg, m, c) == Search(cfg, m1, m1.engine.base.value, c);
    }
  }

  // ---------------------------------------------------------------- the story

  /** Input `i` is the candle that swept the base as it then was. */
  ghost predicate SweptAt(cfg: Config, r: InstrumentState, ins: seq<Input>, i: int, s: SweepEvent) {
    && 0 <= i < |ins| && ins[i].Ltf?
    && var base := Run(cfg, r, ins[..i]).engine.base;
       base.Some? && DetectSweep(ins[i].c, base.value.high, base.value.low) == Some(s)
  }

  /** Input `j` is a displacement candle that completed the gap with the two candles before it. */
  ghost predicate GapAt(cfg: Config, ins: seq<Input>, j: int, fvg: FairValueGap) {
    && 0 <= j < |ins| && ins[j].Ltf?
    && Confirms(cfg, LtfCandles(ins[..j + 1]), ins[j].c, fvg)
  }

  /** Nothing has ended a sweep since position `i`. */
  ghost predicate Undisposed(cfg: Config, r: InstrumentState, ins: seq<Input>, i: int) {
    && Latest(cfg, r, ins, PassedK) < i && Latest(cfg, r, ins, FilteredK) < i
    && Latest(cfg, r, ins, StaleK) < i && Latest(cfg, r, ins, RejectedK) < i
  }

  /** The history behind a pending sweep and an armed zone. */
  ghost predicate Story(cfg: Config, r: InstrumentState, ins: seq<Input>) {
    var m, i, j := Run(cfg, r, ins), Latest(cfg, r, ins, SweptK), Latest(cfg, r, ins, ArmedK);
    && Inv(m)
    && (m.pending.Some? ==> SweptAt(cfg, r, ins, i, m.pending.value) && Undisposed(cfg, r, ins, i))
    && (m.pending.Some? && !IsArmed(m.trigger) ==> j < i && m.checked == UnblockedAfter(cfg, r, ins, i))
    && (IsArmed(m.trigger) ==>
          && i <= j && GapAt(cfg, ins, j, m.trigger.value.fvg)
          && m.trigger == CheckAll(Watching(m.trigger.value.fvg), LtfAfter(ins, j)))
  }

  // ---------------------------------------------------------------- one more input

  lemma StepReads(cfg: Config, r: InstrumentState, ins: seq<Input>, i: Input)
    ensures var all := ins + [i];
      && Front(all) == ins && Last(all) == i
      && Run(cfg, r, all) == Step(cfg, Run(cfg, r, ins), i).machine
      && (forall k: nat :: k <= |ins| ==> all[..k] == ins[..k])
  {
    assert Front(ins + [i]) == ins;
  }

  /** Facts about positions before the last input do not change. */
  lemma OldSweep(cfg: Config, r: InstrumentState, ins: seq<Input>, i: Input, at: int, s: SweepEvent)
    requires SweptAt(cfg, r, ins, at, s)
    ensures SweptAt(cfg, r, ins + [i], at, s)
  {
    var all := ins + [i];
    assert all[..at] == ins[..at] && all[at] == ins[at];
  }

  lemma OldGap(cfg: Config, ins: seq<Input>, i: Input, at: int, g: FairValueGap)
    requires GapAt(cfg, ins, at, g)
    ensures GapAt(cfg, ins + [i], at, g)
  {
    var all := ins + [i];
    assert all[..at + 1] == ins[..at + 1] && all[at] == ins[at];
  }

  lemma QuietStory(cfg: Config, r: InstrumentState, ins: seq<Input>, i: Input)
    requires Story(cfg, r, ins)
    requires var m, res := Run(cfg, r, ins), Step(cfg, Run(cfg, r, ins), i);
      && res.machine.pending == m.pending && res.machine.trigger == m.trigger && res.machine.checked == m.checked
      && Inv(res.machine)
      && !Emits(res.events, SweptK) && !Emits(res.events, ArmedK) && !Disposes(res.events)
      && (i.Ltf? ==> !IsArmed(m.trigger) && (m.pending.Some? ==> VoidReset(m.record, i.c).voidBlocked))
    ensures Story(cfg, r, ins + [i])
  {
    StepReads(cfg, r, ins, i);
    var m := Run(cfg, r, ins);
    if m.pending.Some? {
      OldSweep(cfg, r, ins, i, Latest(cfg, r, ins, SweptK), m.pending.value);
      if IsArmed(m.trigger) { OldGap(cfg, ins, i, Latest(cfg, r, ins, ArmedK), m.trigger.value.fvg); }
    }
  }

  /** The watcher's candles grow by the new one, and so does its state. */
  lemma WatchedMore(ins: seq<Input>, c: Candle, j: int, t: Option<RetestTrigger>)
    requires j < |ins|
    ensures LtfAfter(ins + [Ltf(c)], j) == LtfAfter(ins, j) + [c]
    ensures CheckAll(t, LtfAfter(ins + [Ltf(c)], j)) == CheckStep(CheckAll(t, LtfAfter(ins, j)), c).0
  {
    assert Front(ins + [Ltf(c)]) == ins;
    assert Front(LtfAfter(ins, j) + [c]) == LtfAfter(ins, j);
  }

  /** The state after a candle for an armed retest, and which latest positions move. */
  lemma WatchMoves(cfg: Config, r: InstrumentState, ins: seq<Input>, c: Candle)
    requires Inv(Run(cfg, r, ins)) && IsArmed(Run(cfg, r, ins).trigger)
    ensures var m, all := Run(cfg, r, ins), ins + [Ltf(c)];
      var m' := Run(cfg, r, all);
      && m'.trigger == CheckStep(m.trigger, c).0
      && (m'.pending.Some? <==> IsArmed(m'.trigger)) && (m'.pending.Some? ==> m'.pending == m.pending)
      && Latest(cfg, r, all, SweptK) == Latest(cfg, r, ins, SweptK)
      && Latest(cfg, r, all, ArmedK) == Latest(cfg, r, ins, ArmedK)
      && (m'.pending.Some? ==>
            && Latest(cfg, r, all, PassedK) == Latest(cfg, r, ins, PassedK)
            && Latest(cfg, r, all, FilteredK) == Latest(cfg, r, ins, FilteredK)
            && Latest(cfg, r, all, StaleK) == Latest(cfg, r, ins, StaleK)
            && Latest(cfg, r, all, RejectedK) == Latest(cfg, r, ins, RejectedK))
  {
    StepReads(cfg, r, ins, Ltf(c));
    var m := Run(cfg, r, ins);
    var m1 := m.(history := Suffix(m.history + [c], HISTORY_LIMIT), record := VoidReset(m.record, c));
    assert WatchEffect(cfg, m1, c, LtfStep(cfg, m, c)) by {
      WatchDoes(cfg, m1, c);
      assert LtfStep(cfg, m, c) == WatchRetest(cfg, m1, c);
    }
  }

  lemma WatchStory(cfg: Config, r: InstrumentState, ins: seq<Input>, c: Candle)
    requires Story(cfg, r, ins) && IsArmed(Run(cfg, r, ins).trigger)
    requires Inv(Run(cfg, r, ins + [Ltf(c)]))
    ensures Story(cfg, r, ins + [Ltf(c)])
  {
    var m, j := Run(cfg, r, ins), Latest(cfg, r, ins, ArmedK);
    WatchMoves(cfg, r, ins, c);
    OldSweep(cfg, r, ins, Ltf(c), Latest(cfg, r, ins, SweptK), m.pending.value);
    OldGap(cfg, ins, Ltf(c), j, m.trigger.value.fvg);
    WatchedMore(ins, c, j, Watching(m.trigger.value.fvg));
  }

  lemma ConfirmsOfSuffix(cfg: Config, h: seq<Candle>, c: Candle, g: FairValueGap)
    requires Confirms(cfg, Suffix(h, HISTORY_LIMIT), c, g)
    ensures Confirms(cfg, h, c, g)
  {
    assert Suffix(Suffix(h, HISTORY_LIMIT), 6) == Suffix(h, 6);
    assert Displaced(cfg, h, c) == Displaced(cfg, Suffix(h, HISTORY_LIMIT), c);
  }

  lemma GapNow(cfg: Config, r: InstrumentState, ins: seq<Input>, c: Candle, g: FairValueGap)
    requires Confirms(cfg, LtfStep(cfg, Run(cfg, r, ins), c).machine.history, c, g)
    ensures GapAt(cfg, ins + [Ltf(c)], |ins|, g)
  {
    var all := ins + [Ltf(c)];
    assert Front(all) == ins && all[..|ins| + 1] == all;
    HistoryIsRecent(cfg, r, all);
    ConfirmsOfSuffix(cfg, LtfCandles(all), c, g);
  }

  lemma NothingAfterLast(cfg: Config, r: InstrumentState, ins: seq<Input>)
    ensures LtfAfter(ins, |ins| - 1) == [] && UnblockedAfter(cfg, r, ins, |ins| - 1) == 0
  {
  }

  /** A search that leaves no pending sweep leaves no story to tell. */
  lemma SearchEnds(cfg: Config, r: InstrumentState, ins: seq<Input>, i: Input)
    requires var m := Run(cfg, r, ins + [i]); Inv(m) && m.pending.None?
    ensures Story(cfg, r, ins + [i])
  {
  }

  /** The sweep behind the search: the one already pending, or this candle's. */
  lemma SearchSweep(cfg: Config, r: InstrumentState, ins: seq<Input>, c: Candle, res: StepResult)
    requires Story(cfg, r, ins) && Run(cfg, r, ins).engine.base.Some? && res == LtfStep(cfg, Run(cfg, r, ins), c)
    requires var m := Run(cfg, r, ins);
      SearchEffect(cfg, m.(history := Suffix(m.history + [c], HISTORY_LIMIT), record := VoidReset(m.record, c)),
                   m.engine.base.value, c, res)
    requires res.machine.pending.Some?
    ensures var all := ins + [Ltf(c)];
      SweptAt(cfg, r, all, Latest(cfg, r, all, SweptK), res.machine.pending.value)
      && Undisposed(cfg, r, all, Latest(cfg, r, all, SweptK))
  {
    StepReads(cfg, r, ins, Ltf(c));
    var m, all := Run(cfg, r, ins), ins + [Ltf(c)];
    if m.pending.Some? {
      OldSweep(cfg, r, ins, Ltf(c), Latest(cfg, r, ins, SweptK), m.pending.value);
    } else {
      assert all[..|ins|] == ins && all[|ins|] == Ltf(c);
      assert SweptAt(cfg, r, all, |ins|, res.machine.pending.value);
    }
  }

  lemma SearchStory(cfg: Config, r: InstrumentState, ins: seq<Input>, c: Candle)
    requires Story(cfg, r, ins)
    requires var m := Run(cfg, r, ins); !IsArmed(m.trigger) && !Idle(m, c)
    requires Inv(LtfStep(cfg, Run(cfg, r, ins), c).machine)
    ensures Story(cfg, r, ins + [Ltf(c)])
  {
    StepReads(cfg, r, ins, Ltf(c));
    var m, all := Run(cfg, r, ins), ins + [Ltf(c)];
    var res := LtfStep(cfg, m, c);
    UnarmedStep(cfg, m, c);
    if res.machine.pending.Some? {
      SearchSweep(cfg, r, ins, c, res);
      NothingAfterLast(cfg, r, all);
      if Emits(res.events, ArmedK) {
        GapNow(cfg, r, ins, c, res.machine.trigger.value.fvg);
        assert CheckAll(res.machine.trigger, []) == res.machine.trigger;
      }
    } else {
      SearchEnds(cfg, r, ins, Ltf(c));
    }
  }

  lemma LtfStory(cfg: Config, r: InstrumentState, ins: seq<Input>, c: Candle)
    requires Story(cfg, r, ins) && Inv(LtfStep(cfg, Run(cfg, r, ins), c).machine)
    ensures Story(cfg, r, ins + [Ltf(c)])
  {
    var m := Run(cfg, r, ins);
    if IsArmed(m.trigger) {
      StepReads(cfg, r, ins, Ltf(c));
      WatchStory(cfg, r, ins, c);
    } else if Idle(m, c) {
      BlockedIsIdle(cfg, m, c);
      QuietStory(cfg, r, ins, Ltf(c));
    } else {
      SearchStory(cfg, r, ins, c);
    }
  }

  lemma OtherStory(cfg: Config, r: InstrumentState, ins: seq<Input>, i: Input)
    requires Story(cfg, r, ins) && !i.Ltf? && Inv(Step(cfg, Run(cfg, r, ins), i).machine)
    ensures Story(cfg, r, ins + [i])
  {
    if i.Htf? { CountsOfOne(RollingBaseUpdated(i.c.openTime, i.c.high, i.c.low)); }
    QuietStory(cfg, r, ins, i);
  }

  lemma {:induction false} StoryHolds(cfg: Config, r: InstrumentState, ins: seq<Input>)
    ensures Story(cfg, r, ins)
  {
    if ins != [] {
      var front, i := Front(ins), Last(ins);
      assert ins == front + [i];
      StoryHolds(cfg, r, front);
      assert Balanced(Run(cfg, r, front), Step(cfg, Run(cfg, r, front), i)) by {
        StepBalanced(cfg, Run(cfg, r, front), i);
      }
      if i.Ltf? { LtfStory(cfg, r, front, i.c); } else { OtherStory(cfg, r, front, i); }
    }
  }

  // ---------------------------------------------------------------- main results

  lemma Upto(ins: seq<Input>, k: nat)
    requires k < |ins|
    ensures ins[..k + 1] == ins[..k] + [ins[k]]
  {
  }

  lemma UnarmedStep(cfg: Config, m: Machine, c: Candle)
    requires !IsArmed(m.trigger) && !Idle(m, c)
    ensures var h := Suffix(m.history + [c], HISTORY_LIMIT);
      SearchEffect(cfg, m.(history := h, record := VoidReset(m.record, c)), m.engine.base.value, c, LtfStep(cfg, m, c))
  {
    var m1 := m.(history := Suffix(m.history + [c], HISTORY_LIMIT), record := VoidReset(m.record, c));
    assert LtfStep(cfg, m, c) == Search(cfg, m1, m.engine.base.value, c);
    SearchDoes(cfg, m1, m.engine.base.value, c);
  }

  /** A signal is only ever given by an armed machine. */
  lemma SignalNeedsArmed(cfg: Config, m: Machine, i: Input)
    requires Inv(m) && Step(cfg, m, i).decision.Some?
    ensures i.Ltf? && IsArmed(m.trigger)
  {
    if i.Ltf? && !IsArmed(m.trigger) && !Idle(m, i.c) {
      UnarmedStep(cfg, m, i.c);
    }
  }

  /** Provenance of every signal of every run: its sweep was found by the latest sweeping
      candle `i`, and no other sweep was dealt with since; its gap is that of the three
      candles up to the latest arming candle `j`, which is a displacement; its entry candle is
      the first to reach the gap, and among the twelve after `j`. */
  lemma SignalProvenance(cfg: Config, r: InstrumentState, ins: seq<Input>, k: nat)
    requires k < |ins| && At(cfg, r, ins, k).decision.Some?
    ensures var pre, d := ins[..k], At(cfg, r, ins, k).decision.value;
      var i, j := Latest(cfg, r, pre, SweptK), Latest(cfg, r, pre, ArmedK);
      var since := LtfAfter(ins[..k + 1], j);
      && 0 <= i <= j < k
      && SweptAt(cfg, r, pre, i, d.sweep) && Undisposed(cfg, r, pre, i)
      && GapAt(cfg, pre, j, d.fvg)
      && ins[k] == Ltf(d.entry) && since != [] && Last(since) == d.entry
      && FirstRetest(d.fvg, since) == |since| - 1 && |since| <= 12
      && d.direction == d.sweep.direction && d.structuralSl == StructuralSl(cfg, d.sweep)
      && TradingWindow(d.entry.openTime, cfg.blocked, cfg.probable).0
      && var base := Run(cfg, r, pre).engine.base;
         base.Some? && BiasAligned(d.direction, HtfBias(base.value.high, base.value.low, d.entry.close)).0
  {
    var pre, m := ins[..k], Run(cfg, r, ins[..k]);
    StoryHolds(cfg, r, pre);
    SignalNeedsArmed(cfg, m, ins[k]);
    var c := ins[k].c;
    var m1 := m.(history := Suffix(m.history + [c], HISTORY_LIMIT), record := VoidReset(m.record, c));
    assert LtfStep(cfg, m, c) == WatchRetest(cfg, m1, c);
    WatchDoes(cfg, m1, c);
    RetestIsFirstTouch(cfg, r, ins, k);
    Upto(ins, k);
    StepReads(cfg, r, pre, ins[k]);
  }

  /** An armed retest triggers on the first candle that reaches its zone among the twelve
      after arming, and goes stale on the thirteenth otherwise, whatever that candle does. */
  lemma RetestIsFirstTouch(cfg: Config, r: InstrumentState, ins: seq<Input>, k: nat)
    requires k < |ins| && ins[k].Ltf? && IsArmed(Run(cfg, r, ins[..k]).trigger)
    ensures var pre, es := ins[..k], At(cfg, r, ins, k).events;
      var fvg := Run(cfg, r, pre).trigger.value.fvg;
      var since := LtfAfter(ins[..k + 1], Latest(cfg, r, pre, ArmedK));
      && since != [] && Last(since) == ins[k].c
      && (Emits(es, TriggeredK) <==> FirstRetest(fvg, since) == |since| - 1 && |since| <= 12)
      && (Emits(es, StaleK) <==> |since| == 13)
      && FirstRetest(fvg, since) >= |since| - 1 && |since| <= 13
  {
    var pre, m, c := ins[..k], Run(cfg, r, ins[..k]), ins[k].c;
    StoryHolds(cfg, r, pre);
    var fvg, j := m.trigger.value.fvg, Latest(cfg, r, pre, ArmedK);
    Upto(ins, k);
    StepReads(cfg, r, pre, ins[k]);
    var before, since := LtfAfter(pre, j), LtfAfter(ins[..k + 1], j);
    assert since == before + [c] && Front(since) == before;
    WatcherState(fvg, before);
    WatcherState(fvg, since);
    assert since[..|before|] == before;
    FiresOnFirstTouch(fvg, since, |before|);
    FirstRetestFront(fvg, since);
    ArmedStepEvents(cfg, m, c);
  }

  lemma ArmedStepEvents(cfg: Config, m: Machine, c: Candle)
    requires Inv(m) && IsArmed(m.trigger)
    ensures var (trigger, fired) := CheckStep(m.trigger, c);
      && (Emits(LtfStep(cfg, m, c).events, TriggeredK) <==> fired)
      && (Emits(LtfStep(cfg, m, c).events, StaleK) <==> !fired && !IsArmed(trigger))
  {
    var m1 := m.(history := Suffix(m.history + [c], HISTORY_LIMIT), record := VoidReset(m.record, c));
    assert LtfStep(cfg, m, c) == WatchRetest(cfg, m1, c);
    var (trigger, fired) := CheckStep(m.trigger, c);
    if fired {
      var r := Finalize(cfg, m1.(trigger := trigger), c);
      CountsOfOne(r.events[0]);
      assert r.events == [r.events[0]];
      CountsOfCons(RetestTriggered(c.openTime), r.events);
    } else if !IsArmed(trigger) {
      CountsOfOne(RetestStale(c.openTime));
    }
  }

  lemma {:induction false} LatestAfter(cfg: Config, r: InstrumentState, ins: seq<Input>, at: nat, k: Kind)
    requires at < |ins| && Emits(At(cfg, r, ins, at).events, k)
    ensures Latest(cfg, r, ins, k) >= at
  {
    var front := Front(ins);
    assert ins[..|ins| - 1] == front;
    if at < |front| {
      assert front[..at] == ins[..at];
      LatestAfter(cfg, r, front, at, k);
    }
  }

  /** No sweep serves two signals: a later signal's sweep comes after the earlier signal. */
  lemma SignalsUseDistinctSweeps(cfg: Config, r: InstrumentState, ins: seq<Input>, k: nat, later: nat)
    requires k < later < |ins|
    requires At(cfg, r, ins, k).decision.Some? && At(cfg, r, ins, later).decision.Some?
    ensures Latest(cfg, r, ins[..k], SweptK) < k < Latest(cfg, r, ins[..later], SweptK)
  {
    SignalProvenance(cfg, r, ins, later);
    var pre := ins[..later];
    assert pre[..k] == ins[..k];
    StoryHolds(cfg, r, ins[..k]);
    StepBalanced(cfg, Run(cfg, r, ins[..k]), ins[k]);
    LatestAfter(cfg, r, pre, k, PassedK);
  }

  // ---------------------------------------------------------------- latency

  /** With a window of two or more, an unarmed pending sweep is still inside its window. */
  predicate InWindow(cfg: Config, m: Machine) {
    m.pending.Some? && !IsArmed(m.trigger) ==>
      0 <= m.checked < cfg.window && (|m.history| <= 2 ==> m.checked < |m.history|)
  }

  lemma JudgeInWindow(cfg: Config, m: Machine, c: Candle)
    requires m.history != [] && m.pending.Some? && cfg.window >= 2
    requires 0 <= m.checked <= cfg.window && (|m.history| <= 2 ==> m.checked < |m.history|)
    ensures InWindow(cfg, Judge(cfg, m, c).machine)
  {
  }

  lemma SearchInWindow(cfg: Config, m: Machine, base: Base, c: Candle)
    requires m.history != [] && !IsArmed(m.trigger) && cfg.window >= 2
    requires m.pending.Some? ==> 0 <= m.checked < cfg.window && (|m.history| <= 2 ==> m.checked + 1 < |m.history|)
    ensures InWindow(cfg, Search(cfg, m, base, c).machine)
  {
    var sweep := DetectSweep(c, base.high, base.low);
    if m.pending.Some? {
      assert Search(cfg, m, base, c) == Judge(cfg, m.(checked := m.checked + 1), c);
      JudgeInWindow(cfg, m.(checked := m.checked + 1), c);
    } else if sweep.Some? {
      var m1 := m.(pending := sweep, sweepCandle := Some(c), checked := 0);
      assert Search(cfg, m, base, c).machine == Judge(cfg, m1, c).machine;
      JudgeInWindow(cfg, m1, c);
    }
  }

  lemma {:induction false} RunInWindow(cfg: Config, r: InstrumentState, ins: seq<Input>)
    requires cfg.window >= 2
    ensures InWindow(cfg, Run(cfg, r, ins))
  {
    if ins != [] {
      RunInWindow(cfg, r, Front(ins));
      SweepsConserved(cfg, r, Front(ins));
      var m, i := Run(cfg, r, Front(ins)), Last(ins);
      if i.Ltf? {
        var h := Suffix(m.history + [i.c], HISTORY_LIMIT);
        var m1 := m.(history := h, record := VoidReset(m.record, i.c));
        if IsArmed(m.trigger) {
          assert LtfStep(cfg, m, i.c) == WatchRetest(cfg, m1, i.c);
          WatchDoes(cfg, m1, i.c);
        } else if !Idle(m, i.c) {
          assert LtfStep(cfg, m, i.c) == Search(cfg, m1, m.engine.base.value, i.c);
          SearchInWindow(cfg, m1, m.engine.base.value, i.c);
        }
      }
    }
  }

  /** How many unblocked candles after its sweep's candle a retest armed at step `k` came. */
  function ArmingDelay(cfg: Config, r: InstrumentState, ins: seq<Input>, k: nat): nat
    requires k < |ins|
  {
    UnblockedAfter(cfg, r, ins[..k + 1], Latest(cfg, r, ins[..k + 1], SweptK))
  }

  /** The latest sweep is the pending one, or this very candle's. */
  lemma ArmingDelayOf(cfg: Config, r: InstrumentState, ins: seq<Input>, c: Candle)
    requires Story(cfg, r, ins) && Inv(Run(cfg, r, ins))
    requires var m := Run(cfg, r, ins); !IsArmed(m.trigger) && !Idle(m, c)
    requires Emits(LtfStep(cfg, Run(cfg, r, ins), c).events, ArmedK)
    ensures var m, all := Run(cfg, r, ins), ins + [Ltf(c)];
      UnblockedAfter(cfg, r, all, Latest(cfg, r, all, SweptK)) == if m.pending.Some? then m.checked + 1 else 0
  {
    var m, all := Run(cfg, r, ins), ins + [Ltf(c)];
    StepReads(cfg, r, ins, Ltf(c));
    UnarmedStep(cfg, m, c);
    NothingAfterLast(cfg, r, all);
  }

  lemma ArmsWithinWindow(cfg: Config, r: InstrumentState, ins: seq<Input>, k: nat)
    requires cfg.window >= 2 && k < |ins| && Emits(At(cfg, r, ins, k).events, ArmedK)
    ensures ArmingDelay(cfg, r, ins, k) <= cfg.window
  {
    var pre, m := ins[..k], Run(cfg, r, ins[..k]);
    Upto(ins, k);
    StoryHolds(cfg, r, pre);
    RunInWindow(cfg, r, pre);
    ArmsInSearch(cfg, m, ins[k]);
    ArmingDelayOf(cfg, r, pre, ins[k].c);
  }

  /** Only a candle that searches can arm a retest. */
  lemma ArmsInSearch(cfg: Config, m: Machine, i: Input)
    requires Inv(m) && Emits(Step(cfg, m, i).events, ArmedK)
    ensures i.Ltf? && !IsArmed(m.trigger) && !Idle(m, i.c)
  {
    match i
    case Ltf(c) =>
      if IsArmed(m.trigger) {
        var m1 := m.(history := Suffix(m.history + [c], HISTORY_LIMIT), record := VoidReset(m.record, c));
        assert LtfStep(cfg, m, c) == WatchRetest(cfg, m1, c);
        WatchDoes(cfg, m1, c);
      } else if Idle(m, c) {
        BlockedIsIdle(cfg, m, c);
      }
    case Htf(c) => CountsOfOne(RollingBaseUpdated(c.openTime, c.high, c.low));
    case SlHit(_) =>
  }
}
