/** What the long-lived state of the signal machine means over whole runs: the BLOCKED flag,
    the rolling base, and the bounded candle history.
 */
module SignalState {
  import opened Basics
  import opened Patterns
  import opened RollingBase
  import opened Retest
  import opened SignalMachine
  import opened SignalRuns
  import opened SignalStory

  // ---------------------------------------------------------------- rolling base

  function HtfCandles(ins: seq<Input>): seq<Candle> {
    if ins == [] then []
    else if Last(ins).Htf? then HtfCandles(Front(ins)) + [Last(ins).c]
    else HtfCandles(Front(ins))
  }

  lemma StepOfEngine(cfg: Config, m: Machine, i: Input)
    requires Restore(m.record) == m.engine.base
    ensures var m' := Step(cfg, m, i).machine;
      && m'.engine == (if i.Htf? then EngineStep(m.engine, i.c).0 else m.engine)
      && Restore(m'.record) == m'.engine.base
  {
    if i.Ltf? { LtfFrame(cfg, m, i.c); }
  }

  /** The engine sees exactly the higher-timeframe candles, and the store agrees with it. */
  lemma {:induction false} EngineOfRun(cfg: Config, r: InstrumentState, ins: seq<Input>)
    ensures Run(cfg, r, ins).engine == EngineRun(Engine(Restore(r), None), HtfCandles(ins))
    ensures Restore(Run(cfg, r, ins).record) == Run(cfg, r, ins).engine.base
  {
    if ins != [] {
      EngineOfRun(cfg, r, Front(ins));
      var m, i := Run(cfg, r, Front(ins)), Last(ins);
      StepOfEngine(cfg, m, i);
      if i.Htf? { assert Front(HtfCandles(Front(ins)) + [i.c]) == HtfCandles(Front(ins)); }
    }
  }

  /** The base, in memory and in the store, is the range of the last breaking candle of the run,
      else whatever was stored. */
  lemma BaseOfRun(cfg: Config, r: InstrumentState, ins: seq<Input>)
    ensures var m, hs := Run(cfg, r, ins), HtfCandles(ins);
      || (exists i: nat :: IsLastBreak(None, hs, i) && IsRangeOf(m.engine.base, hs[i]) && Stores(m.record, hs[i]))
      || (&& (forall i: nat :: i < |hs| ==> !BreaksAt(None, hs, i)) && m.engine.base == Restore(r)
          && m.record.baseHigh == r.baseHigh && m.record.baseLow == r.baseLow && m.record.baseTime == r.baseTime)
  {
    EngineOfRun(cfg, r, ins);
    BaseIsLastBreak(Engine(Restore(r), None), HtfCandles(ins));
    StoredOfRun(cfg, r, ins);
  }

  /** What the record says of the base after higher-timeframe candles `hs`. */
  ghost predicate StoresLast(rec: InstrumentState, r: InstrumentState, hs: seq<Candle>) {
    && (forall i: nat :: IsLastBreak(None, hs, i) ==> Stores(rec, hs[i]))
    && ((forall i: nat :: i < |hs| ==> !BreaksAt(None, hs, i)) ==>
          rec.baseHigh == r.baseHigh && rec.baseLow == r.baseLow && rec.baseTime == r.baseTime)
  }

  lemma StoresAfter(rec: InstrumentState, rec': InstrumentState, r: InstrumentState, hs: seq<Candle>, c: Candle)
    requires StoresLast(rec, r, hs)
    requires if hs != [] && ClosesOutside(Last(hs), c) then Stores(rec', c)
             else rec'.baseHigh == rec.baseHigh && rec'.baseLow == rec.baseLow && rec'.baseTime == rec.baseTime
    ensures StoresLast(rec', r, hs + [c])
  {
    BreaksSnoc(hs, c);
  }

  /** The stored levels follow the breaks too. */
  lemma {:induction false} StoredOfRun(cfg: Config, r: InstrumentState, ins: seq<Input>)
    ensures StoresLast(Run(cfg, r, ins).record, r, HtfCandles(ins))
  {
    if ins != [] {
      var front, i := Front(ins), Last(ins);
      StoredOfRun(cfg, r, front);
      var m := Run(cfg, r, front);
      if i.Htf? {
        EngineOfRun(cfg, r, front);
        LastBreakBase(Engine(Restore(r), None), HtfCandles(front));
        StoresAfter(m.record, Run(cfg, r, ins).record, r, HtfCandles(front), i.c);
      } else if i.Ltf? {
        LtfFrame(cfg, m, i.c);
      }
    }
  }

  /** One more higher-timeframe candle breaks, or the last break stays. */
  lemma BreaksSnoc(hs: seq<Candle>, c: Candle)
    ensures var all, broke := hs + [c], hs != [] && ClosesOutside(Last(hs), c);
      && BreaksAt(None, all, |hs|) == broke
      && (forall i: nat :: IsLastBreak(None, all, i) ==> if broke then i == |hs| else i < |hs| && IsLastBreak(None, hs, i))
      && (forall i: nat :: i < |hs| ==> all[i] == hs[i] && BreaksAt(None, all, i) == BreaksAt(None, hs, i))
  {
    var all := hs + [c];
    assert Front(all) == hs && all[|hs|] == c;
    FrontBreaks(None, all);
    forall i: nat | IsLastBreak(None, all, i)
      ensures if BreaksAt(None, all, |hs|) then i == |hs| else i < |hs| && IsLastBreak(None, hs, i)
    {
      assert i < |hs| && BreaksAt(None, all, |hs|) ==> !IsLastBreak(None, all, i);
      assert !BreaksAt(None, all, |hs|) ==> i != |hs|;
    }
  }

  /** From a stored base in order, candles in order keep it in order over every run. */
  lemma BaseInOrder(cfg: Config, r: InstrumentState, ins: seq<Input>)
    requires WellOrdered(Restore(r))
    requires forall k :: 0 <= k < |HtfCandles(ins)| ==> HtfCandles(ins)[k].low <= HtfCandles(ins)[k].high
    ensures WellOrdered(Run(cfg, r, ins).engine.base)
  {
    EngineOfRun(cfg, r, ins);
    BaseStaysOrdered(Engine(Restore(r), None), HtfCandles(ins));
  }

  /** A step announces a new base exactly when a higher-timeframe candle closes outside the range of
      the one before, and announces that candle's range. */
  lemma BaseAnnouncedIff(cfg: Config, r: InstrumentState, ins: seq<Input>, i: Input)
    ensures forall t, high, low :: RollingBaseUpdated(t, high, low) in Step(cfg, Run(cfg, r, ins), i).events <==>
      && i.Htf? && LastHtf(ins).Some? && ClosesOutside(LastHtf(ins).value, i.c)
      && t == i.c.openTime && high == i.c.high && low == i.c.low
  {
    var m := Run(cfg, r, ins);
    match i
    case Ltf(c) => LtfAnnouncesNoBase(cfg, m, c);
    case Htf(c) =>
      EngineOfRun(cfg, r, ins);
      BaseIsLastBreak(Engine(Restore(r), None), HtfCandles(ins));
    case SlHit(_) =>
  }

  predicate NoBaseIn(es: seq<Event>) { forall i :: 0 <= i < |es| ==> !es[i].RollingBaseUpdated? }

  lemma JudgeAnnouncesNoBase(cfg: Config, m: Machine, c: Candle)
    requires m.history != []
    ensures NoBaseIn(Judge(cfg, m, c).events)
  {
  }

  lemma SearchAnnouncesNoBase(cfg: Config, m: Machine, base: Base, c: Candle)
    requires m.history != []
    ensures NoBaseIn(Search(cfg, m, base, c).events)
  {
    var sweep := DetectSweep(c, base.high, base.low);
    if m.pending.Some? {
      JudgeAnnouncesNoBase(cfg, m.(checked := m.checked + 1), c);
    } else if sweep.Some? {
      JudgeAnnouncesNoBase(cfg, m.(pending := sweep, sweepCandle := Some(c), checked := 0), c);
    }
  }

  lemma LtfAnnouncesNoBase(cfg: Config, m: Machine, c: Candle)
    ensures NoBaseIn(LtfStep(cfg, m, c).events)
  {
    var m1 := m.(history := Suffix(m.history + [c], HISTORY_LIMIT), record := VoidReset(m.record, c));
    if IsArmed(m.trigger) {
      assert LtfStep(cfg, m, c) == WatchRetest(cfg, m1, c);
    } else if !Idle(m, c) {
      SearchAnnouncesNoBase(cfg, m1, m.engine.base.value, c);
      assert LtfStep(cfg, m, c) == Search(cfg, m1, m.engine.base.value, c);
    }
  }

  // ---------------------------------------------------------------- void state

  function LastHtf(ins: seq<Input>): Option<Candle> {
    if HtfCandles(ins) == [] then None else Some(Last(HtfCandles(ins)))
  }

  /** Input `k` ends a block: a lower-timeframe candle returns to its level, if it has one, or a
      higher-timeframe candle breaks its predecessor's range. */
  predicate Clears(ins: seq<Input>, k: nat, level: Option<real>)
    requires k < |ins|
  {
    match ins[k]
    case Ltf(c) => level.Some? && c.low <= level.value <= c.high
    case Htf(c) => LastHtf(ins[..k]).Some? && ClosesOutside(LastHtf(ins[..k]).value, c)
    case SlHit(_) => false
  }

  /** No stop-out came after position `h`, and nothing cleared a block at `level`. */
  ghost predicate StandsSince(ins: seq<Input>, h: int, level: Option<real>) {
    forall k: nat :: h < k < |ins| ==> !ins[k].SlHit? && !Clears(ins, k, level)
  }

  /** The stop-out at `h` is the latest and nothing has cleared it since. */
  ghost predicate BlockedSince(ins: seq<Input>, h: nat, level: real) {
    h < |ins| && ins[h] == SlHit(level) && StandsSince(ins, h, Some(level))
  }

  /** The block the stored record began with is still the one in force. */
  ghost predicate RestoredBlock(r: InstrumentState, ins: seq<Input>) {
    r.voidBlocked && StandsSince(ins, -1, r.voidLevel)
  }

  lemma StandsSnoc(ins: seq<Input>, i: Input, h: int, level: Option<real>)
    requires h < |ins|
    ensures StandsSince(ins + [i], h, level) <==>
      StandsSince(ins, h, level) && !i.SlHit? && !Clears(ins + [i], |ins|, level)
  {
    var all := ins + [i];
    forall k: nat | k < |ins|
      ensures all[k] == ins[k] && (Clears(all, k, level) <==> Clears(ins, k, level))
    {
      assert all[..k] == ins[..k];
    }
    if StandsSince(all, h, level) {
      assert all[|ins|] == i;
      assert forall k: nat :: h < k < |ins| ==> !all[k].SlHit? && !Clears(all, k, level);
    }
  }

  /** The block after one more input, from the block before it. */
  lemma RecordStep(cfg: Config, r: InstrumentState, ins: seq<Input>, i: Input)
    ensures var a, b := Run(cfg, r, ins).record, Run(cfg, r, ins + [i]).record;
      match i
      case SlHit(level) => b.voidBlocked && b.voidLevel == Some(level)
      case _ =>
        if a.voidBlocked && !Clears(ins + [i], |ins|, a.voidLevel) then b.voidBlocked && b.voidLevel == a.voidLevel
        else !b.voidBlocked
  {
    StepReads(cfg, r, ins, i);
    assert (ins + [i])[..|ins|] == ins;
    var m := Run(cfg, r, ins);
    match i
    case Ltf(c) => LtfFrame(cfg, m, c);
    case Htf(c) =>
      EngineOfRun(cfg, r, ins);
      BaseIsLastBreak(Engine(Restore(r), None), HtfCandles(ins));
      assert m.engine.prev == LastHtf(ins);
    case SlHit(_) =>
  }

  /** BLOCKED holds exactly when the block of the stored record still stands or the latest stop-out
      has not been cleared, and it carries that block's level. */
  lemma {:induction false} BlockedIff(cfg: Config, r: InstrumentState, ins: seq<Input>)
    ensures var rec := Run(cfg, r, ins).record;
      && (rec.voidBlocked <==> RestoredBlock(r, ins) || exists h, level :: BlockedSince(ins, h, level))
      && (RestoredBlock(r, ins) ==> rec.voidLevel == r.voidLevel)
      && (forall h, level :: BlockedSince(ins, h, level) ==> rec.voidLevel == Some(level))
  {
    if ins != [] {
      var front, i := Front(ins), Last(ins);
      assert ins == front + [i];
      BlockedIff(cfg, r, front);
      RecordStep(cfg, r, front, i);
      StandsSnoc(front, i, -1, r.voidLevel);
      BlocksSnoc(front, i);
      if i.SlHit? {
        assert StandsSince(ins, |front|, Some(i.level));
        assert BlockedSince(ins, |front|, i.level);
      } else {
        BlocksKept(front, i);
      }
    }
  }

  /** After a stop-out it is the only block. */
  lemma BlocksSnoc(ins: seq<Input>, i: Input)
    ensures i.SlHit? ==> forall h, level :: BlockedSince(ins + [i], h, level) ==> h == |ins| && level == i.level
  {
    if i.SlHit? {
      forall h: nat, level | BlockedSince(ins + [i], h, level) ensures h == |ins| && level == i.level {
        if h < |ins| { StandsSnoc(ins, i, h, Some(level)); }
      }
    }
  }

  /** After any other input the blocks are those before that it does not clear. */
  lemma BlocksKept(ins: seq<Input>, i: Input)
    requires !i.SlHit?
    ensures forall h, level :: BlockedSince(ins + [i], h, level) <==>
      BlockedSince(ins, h, level) && !Clears(ins + [i], |ins|, Some(level))
  {
    forall h: nat, level ensures BlockedSince(ins + [i], h, level) <==>
      BlockedSince(ins, h, level) && !Clears(ins + [i], |ins|, Some(level))
    {
      if h < |ins| { StandsSnoc(ins, i, h, Some(level)); }
    }
  }

  /** Without a stop-out nothing is ever blocked that the stored record did not block. */
  lemma NoStopOutNoBlock(cfg: Config, r: InstrumentState, ins: seq<Input>)
    requires forall k :: 0 <= k < |ins| ==> !ins[k].SlHit?
    ensures Run(cfg, r, ins).record.voidBlocked <==> RestoredBlock(r, ins)
  {
    BlockedIff(cfg, r, ins);
  }

  // ---------------------------------------------------------------- bounded history

  function FullStep(cfg: Config, m: Machine, i: Input): StepResult {
    if i.Ltf? then LtfStepOn(cfg, m, m.history + [i.c], i.c) else Step(cfg, m, i)
  }

  /** A machine that never forgets a candle. */
  function FullRun(cfg: Config, r: InstrumentState, ins: seq<Input>): Machine {
    if ins == [] then Fresh(r) else FullStep(cfg, FullRun(cfg, r, Front(ins)), Last(ins)).machine
  }

  /** Two results that differ at most in the remembered candles. */
  predicate SameButHistory(a: StepResult, b: StepResult) {
    && a.events == b.events && a.decision == b.decision
    && a.machine == b.machine.(history := a.machine.history)
  }

  lemma JudgeLooksBackSix(cfg: Config, m: Machine, h: seq<Candle>, k: seq<Candle>, c: Candle)
    requires h != [] && k != [] && Suffix(h, 6) == Suffix(k, 6)
    ensures SameButHistory(Judge(cfg, m.(history := h), c), Judge(cfg, m.(history := k), c))
  {
    assert Displaced(cfg, h, c) == Displaced(cfg, k, c);
    assert |h| < 3 <==> |k| < 3;
    if |h| >= 3 {
      var s := Suffix(h, 6);
      assert NewestGap(h) == NewestGap(s);
      assert NewestGap(k) == NewestGap(s);
    }
  }

  lemma SearchLooksBackSix(cfg: Config, m: Machine, h: seq<Candle>, k: seq<Candle>, base: Base, c: Candle)
    requires h != [] && k != [] && Suffix(h, 6) == Suffix(k, 6)
    ensures SameButHistory(Search(cfg, m.(history := h), base, c), Search(cfg, m.(history := k), base, c))
  {
    var sweep := DetectSweep(c, base.high, base.low);
    var m1 := if m.pending.Some? then m.(checked := m.checked + 1)
              else m.(pending := sweep, sweepCandle := Some(c), checked := 0);
    JudgeLooksBackSix(cfg, m1, h, k, c);
  }

  lemma StepLooksBackSix(cfg: Config, m: Machine, h: seq<Candle>, k: seq<Candle>, c: Candle)
    requires h != [] && k != [] && Suffix(h, 6) == Suffix(k, 6)
    ensures SameButHistory(LtfStepOn(cfg, m, h, c), LtfStepOn(cfg, m, k, c))
    ensures LtfStepOn(cfg, m, h, c).machine.history == h
  {
    var m1 := m.(history := h, record := VoidReset(m.record, c));
    if IsArmed(m.trigger) {
      var (trigger, fired) := CheckStep(m.trigger, c);
    } else if !m1.record.voidBlocked && m1.engine.base.Some? {
      SearchLooksBackSix(cfg, m1, h, k, m1.engine.base.value, c);
      SearchDoes(cfg, m1, m1.engine.base.value, c);
      assert LtfStepOn(cfg, m, h, c) == Search(cfg, m1, m1.engine.base.value, c);
      assert LtfStepOn(cfg, m, k, c) == Search(cfg, m1.(history := k), m1.engine.base.value, c);
    }
  }

  lemma SuffixOfSuffix(h: seq<Candle>, c: Candle, n: nat)
    requires n >= 6
    ensures Suffix(Suffix(Suffix(h, n) + [c], n), 6) == Suffix(h + [c], 6)
    ensures Suffix(Suffix(h, n) + [c], n) == Suffix(h + [c], n)
  {
  }

  /** A step never reads the history it is given except to extend it. */
  lemma StepIgnoresOldHistory(cfg: Config, m: Machine, old': seq<Candle>, h: seq<Candle>, c: Candle)
    requires h != []
    ensures LtfStepOn(cfg, m.(history := old'), h, c) == LtfStepOn(cfg, m, h, c)
  {
    assert m.(history := old').(history := h, record := VoidReset(m.record, c))
        == m.(history := h, record := VoidReset(m.record, c));
  }

  lemma BoundedStep(cfg: Config, m: Machine, full: Machine, i: Input)
    requires m == full.(history := Suffix(full.history, HISTORY_LIMIT))
    ensures SameButHistory(Step(cfg, m, i), FullStep(cfg, full, i))
    ensures Step(cfg, m, i).machine.history == Suffix(FullStep(cfg, full, i).machine.history, HISTORY_LIMIT)
  {
    if i.Ltf? {
      var h, k := Suffix(m.history + [i.c], HISTORY_LIMIT), full.history + [i.c];
      SuffixOfSuffix(full.history, i.c, HISTORY_LIMIT);
      StepIgnoresOldHistory(cfg, full, m.history, h, i.c);
      StepLooksBackSix(cfg, full, h, k, i.c);
      StepLooksBackSix(cfg, full, k, h, i.c);
    }
  }

  /** Keeping thirty candles loses nothing: every step of every run has the events and the
      decision of the machine that keeps them all. */
  lemma {:induction false} BoundedHistoryRefinesFull(cfg: Config, r: InstrumentState, ins: seq<Input>)
    ensures Run(cfg, r, ins) == FullRun(cfg, r, ins).(history := Suffix(FullRun(cfg, r, ins).history, HISTORY_LIMIT))
    ensures ins != [] ==>
      SameButHistory(Step(cfg, Run(cfg, r, Front(ins)), Last(ins)), FullStep(cfg, FullRun(cfg, r, Front(ins)), Last(ins)))
  {
    if ins != [] {
      BoundedHistoryRefinesFull(cfg, r, Front(ins));
      BoundedStep(cfg, Run(cfg, r, Front(ins)), FullRun(cfg, r, Front(ins)), Last(ins));
    }
  }
}
