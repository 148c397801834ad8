/** The candle dispatch of main.py: one signal machine per instrument over one shared store. */
module Routing {
  import opened Basics
  import opened RollingBase
  import opened SignalMachine

  /** Which step a closed candle causes in its own instrument's machine. */
  function Routed(cfg: Config, m: Machine, c: Candle, htf: int, primaryLtf: int): (Machine, Option<SignalDecision>) {
    if c.timeframe == htf then (HtfStep(cfg, m, c).machine, None)
    else if c.timeframe == primaryLtf then
      var r := LtfStep(cfg, m, c);
      (r.machine, r.decision)
    else (m, None)
  }

  class CandleRouter {
    const htf: int
    const primaryLtf: int
    const store: StateStore
    const machines: map<string, InstrumentStateMachine>

    constructor (htf: int, primaryLtf: int, store: StateStore, machines: map<string, InstrumentStateMachine>)
      ensures this.htf == htf && this.primaryLtf == primaryLtf && this.store == store && this.machines == machines
    {
      this.htf, this.primaryLtf, this.store, this.machines := htf, primaryLtf, store, machines;
    }

    ghost function Parts(): set<object> {
      (set k | k in machines :: machines[k] as object)
      + (set k | k in machines :: machines[k].rollingBase as object)
      + (set k | k in machines :: machines[k].retest as object)
      + {store}
    }

    /** One machine per instrument, all on the same store, none sharing a watcher. */
    ghost predicate Valid()
      reads Parts()
    {
      && (forall k :: k in machines ==>
            machines[k].store == store && machines[k].cfg.instrument == k && machines[k].Valid())
      && (forall j, k :: j in machines && k in machines && j != k ==> machines[j].retest != machines[k].retest)
    }

    ghost function ViewOf(k: string): Machine
      requires Valid() && k in machines
      reads Parts()
    {
      machines[k].View()
    }

    method DriveMachine(c: Candle) returns (decision: Option<SignalDecision>)
      requires Valid() && c.instrument in machines && (c.timeframe == htf ==> htf == 75)
      modifies machines[c.instrument], machines[c.instrument].rollingBase, machines[c.instrument].retest, store
      ensures machines[c.instrument].Valid()
      ensures (machines[c.instrument].View(), decision)
           == Routed(machines[c.instrument].cfg, old(machines[c.instrument].View()), c, htf, primaryLtf)
      ensures store.state == old(store.state)[c.instrument := machines[c.instrument].View().record]
    {
      var machine := machines[c.instrument];
      decision := None;
      if c.timeframe == htf {
        machine.OnHtfCandleClose(c);
      } else if c.timeframe == primaryLtf {
        decision := machine.OnLtfCandleClose(c);
      }
    }

    /** A closed candle steps its own instrument's machine and leaves every other machine, and
        every other record of the shared store, exactly as it was. */
    method OnCandleClose(c: Candle) returns (decision: Option<SignalDecision>)
      requires Valid() && (c.timeframe == htf && c.instrument in machines ==> htf == 75)
      modifies Parts()
      ensures Valid()
      ensures forall k :: k in machines ==>
        ViewOf(k) == (if k == c.instrument then Routed(machines[k].cfg, old(ViewOf(k)), c, htf, primaryLtf).0
                      else old(ViewOf(k)))
      ensures decision == if c.instrument !in machines then None
        else Routed(machines[c.instrument].cfg, old(ViewOf(c.instrument)), c, htf, primaryLtf).1
      ensures forall k :: k in old(store.state) && (k != c.instrument || k !in machines) ==>
        k in store.state && store.state[k] == old(store.state)[k]
    {
      if c.instrument !in machines { return None; }
      decision := DriveMachine(c);
      forall k | k in machines && k != c.instrument
        ensures machines[k].Valid() && machines[k].View() == old(machines[k].View())
      {
        assert machines[k].cfg.instrument != machines[c.instrument].cfg.instrument;
        assert unchanged(machines[k]) && unchanged(machines[k].rollingBase) && unchanged(machines[k].retest);
      }
    }
  }
}
