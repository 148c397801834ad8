/** strategy/retest_trigger.py: one armed zone with a twelve-candle lifetime. */
module Retest {
  import opened Basics
  import opened Patterns

  const STALE_AFTER_CANDLES: int := 12

  datatype RetestTrigger = RetestTrigger(fvg: FairValueGap, candlesWaited: int, armed: bool)

  predicate IsArmed(t: Option<RetestTrigger>) { t.Some? && t.value.armed }

  function Watching(fvg: FairValueGap): Option<RetestTrigger> { Some(RetestTrigger(fvg, 0, true)) }

  /** One candle: the watcher afterwards, and whether the retest fired. */
  function CheckStep(t: Option<RetestTrigger>, c: Candle): (Option<RetestTrigger>, bool) {
    if !IsArmed(t) then (t, false)
    else
      var waited := t.value.candlesWaited + 1;
      if waited > STALE_AFTER_CANDLES then (None, false)
      else if Touches(c, t.value.fvg) then (Some(RetestTrigger(t.value.fvg, waited, false)), true)
      else (Some(RetestTrigger(t.value.fvg, waited, true)), false)
  }

  function CheckAll(t: Option<RetestTrigger>, cs: seq<Candle>): Option<RetestTrigger> {
    if cs == [] then t else CheckStep(CheckAll(t, Front(cs)), Last(cs)).0
  }

  /** The position of the first candle that reaches the zone, or the length. */
  function FirstRetest(fvg: FairValueGap, cs: seq<Candle>): (k: nat)
    ensures k <= |cs|
    ensures k < |cs| ==> Touches(cs[k], fvg)
    ensures forall j :: 0 <= j < k ==> !Touches(cs[j], fvg)
  {
    if cs == [] then 0 else if Touches(cs[0], fvg) then 0 else 1 + FirstRetest(fvg, cs[1..])
  }

  lemma FirstRetestFront(fvg: FairValueGap, cs: seq<Candle>)
    requires cs != []
    ensures FirstRetest(fvg, Front(cs)) ==
      if FirstRetest(fvg, cs) < |cs| - 1 then FirstRetest(fvg, cs) else |cs| - 1
  {
    var a, b := FirstRetest(fvg, Front(cs)), FirstRetest(fvg, cs);
    assert forall j :: 0 <= j < |cs| - 1 ==> Front(cs)[j] == cs[j];
  }

  /** The armed watcher after any candles is decided by the first touch alone. */
  lemma {:induction false} WatcherState(fvg: FairValueGap, cs: seq<Candle>)
    ensures CheckAll(Watching(fvg), cs) ==
      var k := FirstRetest(fvg, cs);
      if k < |cs| && k < STALE_AFTER_CANDLES then Some(RetestTrigger(fvg, k + 1, false))
      else if |cs| <= STALE_AFTER_CANDLES then Some(RetestTrigger(fvg, |cs|, true))
      else None
  {
    if cs != [] {
      WatcherState(fvg, Front(cs));
      FirstRetestFront(fvg, cs);
    }
  }

  /** `check` returns true exactly once: on the first zone-touching candle among the twelve
      after arming, and never when none of the twelve touches. */
  lemma FiresOnFirstTouch(fvg: FairValueGap, cs: seq<Candle>, k: nat)
    requires k < |cs|
    ensures CheckStep(CheckAll(Watching(fvg), cs[..k]), cs[k]).1 <==>
      k < 12 && k == FirstRetest(fvg, cs)
  {
    WatcherState(fvg, cs[..k]);
    WatcherState(fvg, cs[..k + 1]);
    assert Front(cs[..k + 1]) == cs[..k];
    var a, b := FirstRetest(fvg, cs[..k]), FirstRetest(fvg, cs);
    assert forall j :: 0 <= j < k ==> cs[..k][j] == cs[j];
  }

  class RetestWatcher {
    var active: Option<RetestTrigger>

    constructor ()
      ensures active == None
    {
      active := None;
    }

    predicate IsArmed()
      reads this
    {
      active.Some? && active.value.armed
    }

    method Arm(fvg: FairValueGap)
      modifies this
      ensures active == Watching(fvg)
    {
      active := Some(RetestTrigger(fvg, 0, true));
    }

    method Disarm()
      modifies this
      ensures active == None
    {
      active := None;
    }

    method Check(c: Candle) returns (fired: bool)
      modifies this
      ensures (active, fired) == CheckStep(old(active), c)
    {
      if active.None? || !active.value.armed { return false; }
      active := Some(active.value.(candlesWaited := active.value.candlesWaited + 1));
      if active.value.candlesWaited > STALE_AFTER_CANDLES {
        Disarm();
        return false;
      }
      var fvg := active.value.fvg;
      var retested := c.low <= fvg.gapHigh && c.high >= fvg.gapLow;
      if retested {
        active := Some(active.value.(armed := false));
        return true;
      }
      return false;
    }
  }
}
