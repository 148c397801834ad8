/** Whole runs of the signal machine: any interleaving of candle closes and stop-outs. */
module SignalRuns {
  import opened Basics
  import opened Patterns
  import opened RollingBase
  import opened Retest
  import opened SignalMachine

  datatype Input = Ltf(c: Candle) | Htf(c: Candle) | SlHit(level: real)

  function Step(cfg: Config, m: Machine, i: Input): StepResult {
    match i
    case Ltf(c) => LtfStep(cfg, m, c)
    case Htf(c) => HtfStep(cfg, m, c)
    case SlHit(level) => SlHitStep(m, level)
  }

  /** The machine after the inputs, starting fresh on the store record `r`. */
  function Run(cfg: Config, r: InstrumentState, ins: seq<Input>): Machine {
    if ins == [] then Fresh(r) else Step(cfg, Run(cfg, r, Front(ins)), Last(ins)).machine
  }

  /** What step `k` of the run did. */
  function At(cfg: Config, r: InstrumentState, ins: seq<Input>, k: nat): StepResult
    requires k < |ins|
  {
    Step(cfg, Run(cfg, r, ins[..k]), ins[k])
  }

  function Events(cfg: Config, r: InstrumentState, ins: seq<Input>): seq<Event> {
    if ins == [] then []
    else Events(cfg, r, Front(ins)) + Step(cfg, Run(cfg, r, Front(ins)), Last(ins)).events
  }

  function Decisions(cfg: Config, r: InstrumentState, ins: seq<Input>): seq<SignalDecision> {
    if ins == [] then []
    else
      var d := Step(cfg, Run(cfg, r, Front(ins)), Last(ins)).decision;
      Decisions(cfg, r, Front(ins)) + (if d.Some? then [d.value] else [])
  }

  // ---------------------------------------------------------------- event counts

  datatype Kind = BaseK | SweptK | ExtendedK | ConfirmedK | RejectedK | ArmedK | TriggeredK | StaleK | FilteredK | PassedK

  function KindOf(e: Event): Kind {
    match e
    case RollingBaseUpdated(_, _, _) => BaseK
    case SweepDetected(_, _, _, _) => SweptK
    case WindowExtended(_, _) => ExtendedK
    case DisplacementConfirmed(_, _, _, _) => ConfirmedK
    case SweepRejected(_, _) => RejectedK
    case RetestArmed(_, _, _) => ArmedK
    case RetestTriggered(_) => TriggeredK
    case RetestStale(_) => StaleK
    case SignalFiltered(_, _) => FilteredK
    case SignalPassed(_, _, _) => PassedK
  }

  function Count(es: seq<Event>, k: Kind): nat {
    if es == [] then 0 else Count(es[1..], k) + if KindOf(es[0]) == k then 1 else 0
  }

  lemma {:induction false} CountConcat(a: seq<Event>, b: seq<Event>, k: Kind)
    ensures Count(a + b, k) == Count(a, k) + Count(b, k)
  {
    if a == [] {
      assert a + b == b;
    } else {
      assert (a + b)[1..] == a[1..] + b;
      CountConcat(a[1..], b, k);
    }
  }

  lemma CountOne(e: Event, k: Kind)
    ensures Count([e], k) == if KindOf(e) == k then 1 else 0
  {
    assert [e][1..] == [];
  }

  // ---------------------------------------------------------------- conservation

  /** What every reachable machine satisfies. */
  predicate Inv(m: Machine) {
    && (m.pending.Some? ==> m.engine.base.Some? && m.sweepCandle == Some(m.pending.value.candle))
    && (IsArmed(m.trigger) ==> m.pending.Some?)
  }

  function Pending(m: Machine): nat { if m.pending.Some? then 1 else 0 }

  function ArmedZones(m: Machine): nat { if IsArmed(m.trigger) then 1 else 0 }

  /** One step's ledger: what it opened is what it closed plus what it left open. */
  predicate Balanced(m: Machine, r: StepResult) {
    && Inv(r.machine)
    && Pending(m) + Count(r.events, SweptK)
       == Count(r.events, PassedK) + Count(r.events, FilteredK) + Count(r.events, RejectedK)
          + Count(r.events, StaleK) + Pending(r.machine)
    && ArmedZones(m) + Count(r.events, ArmedK)
       == Count(r.events, TriggeredK) + Count(r.events, StaleK) + ArmedZones(r.machine)
    && Count(r.events, TriggeredK) == Count(r.events, PassedK) + Count(r.events, FilteredK)
    && Count(r.events, PassedK) == if r.decision.Some? then 1 else 0
  }

  lemma CountsOfOne(e: Event)
    ensures forall k :: Count([e], k) == if KindOf(e) == k then 1 else 0
  {
    forall k ensures Count([e], k) == if KindOf(e) == k then 1 else 0 { CountOne(e, k); }
  }

  lemma CountsOfCons(e: Event, es: seq<Event>)
    ensures forall k :: Count([e] + es, k) == Count(es, k) + if KindOf(e) == k then 1 else 0
  {
    forall k ensures Count([e] + es, k) == Count(es, k) + if KindOf(e) == k then 1 else 0 {
      CountConcat([e], es, k);
      CountOne(e, k);
    }
  }

  lemma JudgeBalanced(cfg: Config, m: Machine, c: Candle)
    requires m.history != [] && Inv(m) && m.pending.Some? && !IsArmed(m.trigger)
    ensures Balanced(m, Judge(cfg, m, c))
  {
    var r := Judge(cfg, m, c);
    if |r.events| == 1 {
      assert r.events == [r.events[0]];
      SingleOutcome(m, r, r.events[0]);
    } else {
      assert r.events == [r.events[0]] + [r.events[1]];
      ConfirmedThen(m, r, r.events[0], r.events[1]);
    }
  }

  /** One event: the window goes on, the displacement is confirmed too early for a gap, or the
      sweep is rejected. */
  lemma SingleOutcome(m: Machine, r: StepResult, e: Event)
    requires r.events == [e] && r.decision.None? && Inv(m) && m.pending.Some? && !IsArmed(m.trigger) && Inv(r.machine)
    requires !IsArmed(r.machine.trigger)
    requires || (KindOf(e) == RejectedK && r.machine.pending.None?)
             || ((KindOf(e) == ExtendedK || KindOf(e) == ConfirmedK) && r.machine.pending.Some?)
    ensures Balanced(m, r)
  {
    CountsOfOne(e);
  }

  /** A displacement was confirmed and its gap was armed or missing. */
  lemma ConfirmedThen(m: Machine, r: StepResult, confirmed: Event, outcome: Event)
    requires r.events == [confirmed] + [outcome] && KindOf(confirmed) == ConfirmedK && r.decision.None?
    requires Inv(m) && m.pending.Some? && !IsArmed(m.trigger) && Inv(r.machine)
    requires || (KindOf(outcome) == ArmedK && r.machine.pending.Some? && IsArmed(r.machine.trigger))
             || (KindOf(outcome) == RejectedK && r.machine.pending.None? && !IsArmed(r.machine.trigger))
    ensures Balanced(m, r)
  {
    CountsOfCons(confirmed, [outcome]);
    CountsOfOne(outcome);
  }

  lemma SweepOpensLedger(m: Machine, m1: Machine, r: StepResult, e: Event)
    requires Balanced(m1, r) && KindOf(e) == SweptK
    requires m.pending.None? && m1.pending.Some? && m1.trigger == m.trigger
    ensures Balanced(m, r.(events := [e] + r.events))
  {
    CountsOfCons(e, r.events);
  }

  lemma NewSweepBalanced(cfg: Config, m: Machine, c: Candle, s: SweepEvent)
    requires m.history != [] && Inv(m) && m.engine.base.Some? && !IsArmed(m.trigger) && m.pending.None?
    requires DetectSweep(c, m.engine.base.value.high, m.engine.base.value.low) == Some(s)
    ensures Balanced(m, Search(cfg, m, m.engine.base.value, c))
  {
    var m1 := m.(pending := Some(s), sweepCandle := Some(c), checked := 0);
    var r := Judge(cfg, m1, c);
    assert Balanced(m1, r) by { JudgeBalanced(cfg, m1, c); }
    var e := SweepDetected(c.openTime, s.direction, s.level, s.pierce);
    SweepOpensLedger(m, m1, r, e);
    assert Search(cfg, m, m.engine.base.value, c) == r.(events := [e] + r.events);
  }

  lemma SearchBalanced(cfg: Config, m: Machine, c: Candle)
    requires m.history != [] && Inv(m) && m.engine.base.Some? && !IsArmed(m.trigger)
    ensures Balanced(m, Search(cfg, m, m.engine.base.value, c))
  {
    var base := m.engine.base.value;
    var sweep := DetectSweep(c, base.high, base.low);
    if m.pending.Some? {
      JudgeBalanced(cfg, m.(checked := m.checked + 1), c);
      assert Search(cfg, m, base, c) == Judge(cfg, m.(checked := m.checked + 1), c);
    } else if sweep.Some? {
      NewSweepBalanced(cfg, m, c, sweep.value);
    }
  }

  /** A retest triggered, and its signal passed or was filtered. */
  lemma TriggeredThen(m: Machine, r: StepResult, triggered: Event, outcome: Event)
    requires r.events == [triggered] + [outcome] && KindOf(triggered) == TriggeredK
    requires m.pending.Some? && IsArmed(m.trigger) && Inv(r.machine)
    requires r.machine.pending.None? && !IsArmed(r.machine.trigger)
    requires KindOf(outcome) == if r.decision.Some? then PassedK else FilteredK
    ensures Balanced(m, r)
  {
    CountsOfCons(triggered, [outcome]);
    CountsOfOne(outcome);
  }

  lemma StaleEnds(m: Machine, r: StepResult, stale: Event)
    requires r.events == [stale] && KindOf(stale) == StaleK && r.decision.None?
    requires m.pending.Some? && IsArmed(m.trigger) && Inv(r.machine)
    requires r.machine.pending.None? && !IsArmed(r.machine.trigger)
    ensures Balanced(m, r)
  {
    CountsOfOne(stale);
  }

  lemma WatchBalanced(cfg: Config, m: Machine, c: Candle)
    requires Inv(m) && IsArmed(m.trigger)
    ensures Balanced(m, WatchRetest(cfg, m, c))
  {
    var (trigger, fired) := CheckStep(m.trigger, c);
    var r := WatchRetest(cfg, m, c);
    if fired {
      var outcome := Finalize(cfg, m.(trigger := trigger), c).events;
      assert outcome == [outcome[0]];
      TriggeredThen(m, r, RetestTriggered(c.openTime), outcome[0]);
    } else if !IsArmed(trigger) {
      StaleEnds(m, r, RetestStale(c.openTime));
    }
  }

  lemma LtfBalanced(cfg: Config, m: Machine, history: seq<Candle>, c: Candle)
    requires Inv(m) && history != []
    ensures Balanced(m, LtfStepOn(cfg, m, history, c))
  {
    var m1 := m.(history := history, record := VoidReset(m.record, c));
    if IsArmed(m1.trigger) {
      WatchBalanced(cfg, m1, c);
    } else if !m1.record.voidBlocked && m1.engine.base.Some? {
      SearchBalanced(cfg, m1, c);
    }
  }

  lemma StepBalanced(cfg: Config, m: Machine, i: Input)
    requires Inv(m)
    ensures Balanced(m, Step(cfg, m, i))
  {
    match i
    case Ltf(c) => LtfBalanced(cfg, m, Suffix(m.history + [c], HISTORY_LIMIT), c);
    case Htf(c) => CountsOfOne(RollingBaseUpdated(c.openTime, c.high, c.low));
    case SlHit(_) =>
  }

  /** Every detected sweep of every run ends in exactly one way: a signal, a rejection, a
      filtered signal or a stale retest, save one that may still be pending.  Every armed
      retest triggers or goes stale, save one that may still be armed.  Every trigger becomes
      a signal or is filtered, so the error exits of finalisation are never taken. */
  lemma {:induction false} SweepsConserved(cfg: Config, r: InstrumentState, ins: seq<Input>)
    ensures Inv(Run(cfg, r, ins))
    ensures var m, es := Run(cfg, r, ins), Events(cfg, r, ins);
      && Count(es, SweptK) == |Decisions(cfg, r, ins)| + Count(es, RejectedK) + Count(es, FilteredK)
                              + Count(es, StaleK) + Pending(m)
      && Count(es, ArmedK) == Count(es, TriggeredK) + Count(es, StaleK) + ArmedZones(m)
      && Count(es, TriggeredK) == Count(es, PassedK) + Count(es, FilteredK)
      && Count(es, PassedK) == |Decisions(cfg, r, ins)|
  {
    if ins != [] {
      SweepsConserved(cfg, r, Front(ins));
      var m := Run(cfg, r, Front(ins));
      StepBalanced(cfg, m, Last(ins));
      forall k ensures Count(Events(cfg, r, ins), k) ==
        Count(Events(cfg, r, Front(ins)), k) + Count(Step(cfg, m, Last(ins)).events, k)
      {
        CountConcat(Events(cfg, r, Front(ins)), Step(cfg, m, Last(ins)).events, k);
      }
    }
  }
}
