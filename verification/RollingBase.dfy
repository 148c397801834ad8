/** strategy/state_store.py as a keyed map of records, and strategy/rolling_base.py. */
module RollingBase {
  import opened Basics

  // ---------------------------------------------------------------- store

  datatype InstrumentState = InstrumentState(
    key: string,
    baseHigh: Option<real>, baseLow: Option<real>, baseTime: Option<int>,
    voidBlocked: bool, voidLevel: Option<real>)

  function FreshState(key: string): InstrumentState {
    InstrumentState(key, None, None, None, false, None)
  }

  class StateStore {
    var state: map<string, InstrumentState>

    constructor (persisted: map<string, InstrumentState>)
      ensures state == persisted
    {
      state := persisted;
    }

    method Get(key: string) returns (r: InstrumentState)
      modifies this
      ensures state == if key in old(state) then old(state) else old(state)[key := FreshState(key)]
      ensures r == state[key]
    {
      if key !in state {
        state := state[key := FreshState(key)];
      }
      r := state[key];
    }

    method Save(r: InstrumentState)
      modifies this
      ensures state == old(state)[r.key := r]
    {
      state := state[r.key := r];
    }
  }

  // ---------------------------------------------------------------- engine, on values

  datatype Base = Base(high: real, low: real, establishedAt: Option<int>)

  datatype Engine = Engine(base: Option<Base>, prev: Option<Candle>)

  /** The candle closes outside the range of the one before. */
  predicate Breaks(prev: Candle, c: Candle) {
    c.close < prev.low || c.close > prev.high
  }

  function BaseOf(c: Candle): Base { Base(c.high, c.low, Some(c.openTime)) }

  function EngineStep(e: Engine, c: Candle): (Engine, bool) {
    if e.prev.Some? && Breaks(e.prev.value, c) then (Engine(Some(BaseOf(c)), Some(c)), true)
    else (e.(prev := Some(c)), false)
  }

  function Restore(r: InstrumentState): Option<Base> {
    if r.baseHigh.Some? && r.baseLow.Some? then Some(Base(r.baseHigh.value, r.baseLow.value, r.baseTime))
    else None
  }

  function Persist(r: InstrumentState, b: Base): InstrumentState {
    r.(baseHigh := Some(b.high), baseLow := Some(b.low), baseTime := b.establishedAt)
  }

  function EngineRun(e: Engine, cs: seq<Candle>): Engine {
    if cs == [] then e else EngineStep(EngineRun(e, Front(cs)), Last(cs)).0
  }

  // ---------------------------------------------------------------- whole runs

  predicate ClosesOutside(prev: Candle, c: Candle) { c.close < prev.low || c.close > prev.high }

  /** The base is the range of this candle, as of its open time. */
  predicate IsRangeOf(base: Option<Base>, c: Candle) {
    base.Some? && base.value.high == c.high && base.value.low == c.low && base.value.establishedAt == Some(c.openTime)
  }

  /** The record stores the range of this candle. */
  predicate Stores(r: InstrumentState, c: Candle) {
    r.baseHigh == Some(c.high) && r.baseLow == Some(c.low) && r.baseTime == Some(c.openTime)
  }

  function Before(prev: Option<Candle>, cs: seq<Candle>, i: nat): Option<Candle>
    requires i < |cs|
  {
    if i == 0 then prev else Some(cs[i - 1])
  }

  predicate BreaksAt(prev: Option<Candle>, cs: seq<Candle>, i: nat)
    requires i < |cs|
  {
    Before(prev, cs, i).Some? && ClosesOutside(Before(prev, cs, i).value, cs[i])
  }

  /** Candle `i` is the last one to close outside its predecessor's range. */
  ghost predicate IsLastBreak(prev: Option<Candle>, cs: seq<Candle>, i: nat) {
    && i < |cs| && BreaksAt(prev, cs, i)
    && forall j: nat :: i < j < |cs| ==> !BreaksAt(prev, cs, j)
  }

  lemma FrontBreaks(prev: Option<Candle>, cs: seq<Candle>)
    requires cs != []
    ensures forall j: nat :: j < |cs| - 1 ==> BreaksAt(prev, Front(cs), j) == BreaksAt(prev, cs, j)
  {
    assert forall j: nat :: j < |cs| - 1 ==> Front(cs)[j] == cs[j];
  }

  lemma {:induction false} LastBreakBase(e: Engine, cs: seq<Candle>)
    ensures EngineRun(e, cs).prev == if cs == [] then e.prev else Some(Last(cs))
    ensures || (exists i: nat :: IsLastBreak(e.prev, cs, i) && EngineRun(e, cs).base == Some(BaseOf(cs[i])))
            || ((forall i: nat :: i < |cs| ==> !BreaksAt(e.prev, cs, i)) && EngineRun(e, cs).base == e.base)
  {
    if cs != [] {
      var front := Front(cs);
      LastBreakBase(e, front);
      FrontBreaks(e.prev, cs);
      if BreaksAt(e.prev, cs, |cs| - 1) {
        assert IsLastBreak(e.prev, cs, |cs| - 1);
      } else if exists i: nat :: IsLastBreak(e.prev, front, i) && EngineRun(e, front).base == Some(BaseOf(front[i])) {
        var i: nat :| IsLastBreak(e.prev, front, i) && EngineRun(e, front).base == Some(BaseOf(front[i]));
        assert IsLastBreak(e.prev, cs, i);
      }
    }
  }

  /** The base is the range of the last breaking candle, else whatever was restored. */
  lemma BaseIsLastBreak(e: Engine, cs: seq<Candle>)
    ensures EngineRun(e, cs).prev == if cs == [] then e.prev else Some(Last(cs))
    ensures || (exists i: nat :: IsLastBreak(e.prev, cs, i) && IsRangeOf(EngineRun(e, cs).base, cs[i]))
            || ((forall i: nat :: i < |cs| ==> !BreaksAt(e.prev, cs, i)) && EngineRun(e, cs).base == e.base)
  {
    LastBreakBase(e, cs);
    if i: nat :| IsLastBreak(e.prev, cs, i) && EngineRun(e, cs).base == Some(BaseOf(cs[i])) {
      assert IsRangeOf(EngineRun(e, cs).base, cs[i]);
    }
  }

  predicate WellOrdered(base: Option<Base>) { base.Some? ==> base.value.low <= base.value.high }

  /** From a base in order, candles in order keep it in order. */
  lemma BaseStaysOrdered(e: Engine, cs: seq<Candle>)
    requires WellOrdered(e.base) && forall i :: 0 <= i < |cs| ==> cs[i].low <= cs[i].high
    ensures WellOrdered(EngineRun(e, cs).base)
  {
    BaseIsLastBreak(e, cs);
  }

  ghost predicate BreaksWithin(prev: Option<Candle>, cs: seq<Candle>, from: nat) {
    exists i: nat :: from <= i < |cs| && BreaksAt(prev, cs, i)
  }

  /** A restart loses only the previous candle.  The restarted engine agrees with the one that
      kept running unless the very first candle breaks; then it lags until the next break. */
  lemma {:induction false} RestartDivergence(base: Option<Base>, prev: Option<Candle>, cs: seq<Candle>)
    requires cs != []
    ensures var kept, restarted := EngineRun(Engine(base, prev), cs), EngineRun(Engine(base, None), cs);
      && kept.prev == restarted.prev
      && (BreaksAt(prev, cs, 0) && !BreaksWithin(prev, cs, 1) ==>
            IsRangeOf(kept.base, cs[0]) && restarted.base == base)
      && (!BreaksAt(prev, cs, 0) || BreaksWithin(prev, cs, 1) ==> kept == restarted)
  {
    var front := Front(cs);
    if front == [] {
      assert EngineRun(Engine(base, prev), front) == Engine(base, prev);
      assert EngineRun(Engine(base, None), front) == Engine(base, None);
    } else {
      RestartDivergence(base, prev, front);
      LastBreakBase(Engine(base, prev), front);
      LastBreakBase(Engine(base, None), front);
      FrontBreaks(prev, cs);
      if BreaksAt(prev, cs, |cs| - 1) {
        assert BreaksWithin(prev, cs, 1);
      } else {
        assert BreaksWithin(prev, cs, 1) ==> BreaksWithin(prev, front, 1);
        assert BreaksWithin(prev, front, 1) ==> BreaksWithin(prev, cs, 1);
      }
    }
  }

  // ---------------------------------------------------------------- engine, as an object

  class RollingBaseEngine {
    const key: string
    const store: StateStore
    var base: Option<Base>
    var prev: Option<Candle>

    constructor (key: string, store: StateStore)
      requires forall k :: k in store.state ==> store.state[k].key == k
      modifies store
      ensures this.key == key && this.store == store && Valid()
      ensures store.state == if key in old(store.state) then old(store.state)
                             else old(store.state)[key := FreshState(key)]
      ensures View() == Engine(Restore(store.state[key]), None)
    {
      this.key, this.store := key, store;
      prev := None;
      new;
      var r := store.Get(key);
      if r.baseHigh.Some? && r.baseLow.Some? {
        base := Some(Base(r.baseHigh.value, r.baseLow.value, r.baseTime));
      } else {
        base := None;
      }
    }

    /** The store always agrees with memory. */
    ghost predicate Valid()
      reads this, store
    {
      && key in store.state && store.state[key].key == key
      && base == Restore(store.state[key])
    }

    ghost function View(): Engine
      reads this
    {
      Engine(base, prev)
    }

    method OnHtfCandleClose(c: Candle) returns (updated: bool)
      requires Valid() && c.timeframe == 75
      modifies this, store
      ensures Valid() && (View(), updated) == EngineStep(old(View()), c)
      ensures store.state == if updated then old(store.state)[key := Persist(old(store.state[key]), BaseOf(c))]
                             else old(store.state)
      ensures updated <==> old(prev).Some? && ClosesOutside(old(prev).value, c)
      ensures prev == Some(c) && if updated then IsRangeOf(base, c) && Stores(store.state[key], c) else base == old(base)
    {
      updated := false;
      if prev.Some? {
        var brokeDown := c.close < prev.value.low;
        var brokeUp := c.close > prev.value.high;
        if brokeDown || brokeUp {
          base := Some(Base(c.high, c.low, Some(c.openTime)));
          updated := true;
          PersistBase();
        }
      }
      prev := Some(c);
    }

    method PersistBase()
      requires key in store.state && store.state[key].key == key && base.Some?
      modifies store
      ensures store.state == old(store.state)[key := Persist(old(store.state[key]), base.value)]
    {
      var r := store.Get(key);
      store.Save(Persist(r, base.value));
    }
  }
}
