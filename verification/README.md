# Verification of the sweep-and-retest trading bot

The bot turns ticks into candles, looks for a liquidity sweep of a rolling 75-minute range
followed by a displacement, a fair value gap and a retest of that gap, sizes an option trade from
the spot stop, manages the position (half at the first target, a ratcheting stop for the rest)
and stops trading for the day when a limit is hit.  A backtest replays history through the same
signal machine and simulates each signal's trade on spot candles.

The model follows those five parts:

- **Signals** — `Patterns`, `RollingBase`, `Retest`, `SignalMachine` are the components;
  `SignalRuns`, `SignalEvents`, `SignalStory`, `SignalGates`, `SignalDirections`, `SignalState`,
  `SignalExamples`, `SignalTrades` say what whole runs do, for every interleaving of lower- and higher-timeframe candle
  closes and stop-outs; `Routing` is the dispatch of several instruments over one shared store.
- **Candles** — `Buckets` (session-anchored bucket arithmetic), `Resampler` (what batch resampling
  means), `Aggregator` (the streaming aggregator, the batch loop and reconnect repair), `LiveOrder`
  (how the candles of two timeframes interleave).
- **Positions and session** — `RiskPlans`, `Positions`, `Session`.
- **Live trading** — `LiveTrading`, where a tick or a reconnect, the candles it closes, their machines
  and the trades they cause are one step; `LiveRuns`, `LiveCandles` and `LiveResults` say what whole
  runs of those steps do.
- **Spot trade simulator** — `SpotTrades` (up to target 1), `SpotRunner` (after it).
- **Diagnostic backtest** — `ChunkedFetch`, `Diagnostic`, `ReplayOrder` (against live trading).

Code that updates fields in place is a class here too.  Each of its methods is proved to take the
object from the abstract value `View()` to the value given by a step function (`LtfStep`,
`AfterTick`, `PriceStep`, `SignalStep`, `PremiumStep`, `WalkFrom`, ...), together with its logs and
what it leaves alone.  The theorems are about those step functions over whole runs.

Prices are exact reals; a time is a number of microseconds counted from some IST midnight; a date is
an integer.  What a broker answers (an order accepted or not, the polls of an order's status, the
contract chosen for a signal, rows or an exception for a window of history) and what `date.today()`
says are arbitrary inputs.

## Where the code differs from what it says or suggests

- `strategy/sweep_detector.py:38-40` says one candle cannot sweep both sides.  It does exactly when it
  pierces both levels and closes between them; the code then reports the bearish sweep
  (`Patterns.SweepsBothIff`).
- `data_feed/candle_resampler.py:12-16` calls the buckets midnight-anchored.  They are anchored at
  09:15, which is the same thing exactly when N divides 555 (`Buckets.AnchoringIsNoOpIff`).
- `strategy/displacement.py:94-96` describes the gap as centred on the displacement candle.  The
  machine passes the newest three candles, so the triple ends at it (`SignalStory.SignalProvenance`).
- The directions of sweep, displacement and gap are never compared.  Gap and displacement agree all the
  same, on candles that close within their own range; the sweep agrees with them exactly when the
  arming candle's body points its way (`SignalDirections.SignalDirectionsIff`), and it need not
  (`SignalDirections.SweepAgainstGap`).
- An armed retest is checked before the BLOCKED flag, so a blocked instrument can signal
  (`SignalExamples.SignalsWhileBlocked`): BLOCKED is no part of the exact condition for a signal
  (`SignalGates.SignalIff`), and it silences an armed machine exactly when its level separates the zone
  from the half of the base the entry must close in (`SignalGates.BlockSilencesIff`).
- `displacement_window_candles` bounds the wait for an armed retest only when it is at least two
  (`SignalExamples.WindowBoundsDelayIff`): a displacement among the machine's first two candles
  neither arms nor rejects.
- The bias filter compares the entry with the base as it is at entry, so after a higher-timeframe
  break a bearish signal can carry a stop below its entry (`SignalTrades.StopCanBeOnWrongSide`).  The
  stop is certain to be on the losing side exactly when it clears the middle of the current base
  (`SignalTrades.StopSideIff`).
- CLOSED does not mean flat: a rejected final exit still closes (`Positions.ClosedNotFlatIff`), and
  a reported fill of zero makes the booked position short (`Positions.NeverShortIff`).
- The trade limit counts closed trades, so several instruments can overshoot it
  (`Session.TradeLimitHoldsIff`).
- The simulator is pessimistic before the first target (`SpotTrades.DirectStopIff`) and can be optimistic
  after it (`SpotTrades.OptimisticAfterTarget1`): it never reports target 2 for a trade that came back to
  breakeven first exactly when the return lies in a later candle than target 1, or target 1's candle
  touches the stop (`SpotRunner.PessimisticIff`).
- The replay sorts both timeframes by open time, so the machine sees a 75-minute candle before the
  3-minute candles inside it (`Diagnostic.MergeLeads`); live, it comes after all of them but the
  last (`LiveOrder.CoarseBeforeItsLast`).  The two orders are the same exactly when no closed coarse
  candle is made of more than one finer one (`ReplayOrder.OrdersAgreeIff`), and the difference decides
  signals (`ReplayOrder.OrderDecides`).
- After a reconnect candles can be handed out again (`Aggregator.RepairDeliversTwice`).  Each is
  delivered once, in order, exactly when nothing had been delivered, or the history fetched starts
  after the last candle delivered, or history and ticks stay within one candle
  (`Aggregator.DeliveredOnceIff`); however the ticks go on, exactly in the first two cases
  (`Aggregator.AlwaysDeliveredOnceIff`).
- A reconnect passes on only the last 180 minutes of the day's history (`main.py:246-248`).  The first
  candle of a timeframe made of them is the whole one exactly when the cut falls on a boundary of that
  timeframe (`Resampler.CutHistoryIff`); otherwise a truncated 75-minute candle reaches the rolling base.
- Nothing in the repository calls `on_sl_hit`; for the machines it is an input of the environment.  So
  live trading never blocks an instrument: BLOCKED is only ever the block of the stored record, while
  it stands (`LiveResults.LiveNeverBlocks`).

## Model

| member | source | states |
|---|---|---|
| SignalRuns.SweepsConserved | strategy/state_machine.py:155-323 | over every run: sweeps detected = signals + rejected + filtered + stale + one still pending; retests armed = triggered + stale + one still armed; every trigger is a signal or filtered, so the error exits of finalisation are dead |
| SignalRuns.StepBalanced | strategy/state_machine.py:137-329 | each single input keeps that ledger and the invariant that an armed zone has a pending sweep and a pending sweep has a base |
| SignalEvents.SweptIff | strategy/state_machine.py:161-206 | step k of any run takes up a sweep exactly when its candle pierces a level of the base and closes back, with nothing armed, blocked or pending |
| SignalEvents.ArmedIff | strategy/state_machine.py:207-256 | it arms a retest exactly when a sweep is pending or taken up, the candle displaces the up to five before it, and the candle two before it is out of its reach |
| SignalEvents.RejectedIff | strategy/state_machine.py:223-263 | it rejects a sweep for want of a displacement exactly when the judged candle does not displace and the window is used up, and for want of a gap exactly when it displaces and three candles are not apart |
| SignalEvents.ExtendedAndConfirmedIff | strategy/state_machine.py:223-243 | it extends the window, or confirms a displacement, exactly in the remaining cases |
| SignalEvents.CheckedIsUnblocked | strategy/state_machine.py:200-211 | what the window counts is the unblocked candles since the sweep's own |
| SignalEvents.EventsCarry | strategy/state_machine.py:199-260 | every event of a searching step carries the level, pierce, ratio, count and zone of its own candle |
| SignalStory.StoryHolds | strategy/state_machine.py:155-264 | at every point of every run: which input made the pending sweep and the armed zone, that the arming candle was a displacement and completed the gap, that nothing disposed of the sweep since, and that the window counter is the number of unblocked candles since |
| SignalStory.SignalProvenance | strategy/state_machine.py:266-323 | every signal uses the latest sweep, found against the base of that moment and not used before; its gap is that of three consecutive candles ending at a displacement; its entry is the first candle to reach the gap, among the twelve after arming; window and bias passed |
| SignalStory.RetestIsFirstTouch | strategy/state_machine.py:161-179 | in a run, an armed zone triggers exactly on its first touch within twelve candles and goes stale exactly on the thirteenth |
| SignalStory.SignalsUseDistinctSweeps | strategy/state_machine.py:266-269 | the sweep of a later signal comes after the earlier signal, so no sweep serves two |
| SignalStory.RunInWindow | strategy/state_machine.py:207-237 | for a window of at least two, an unarmed pending sweep is always still inside its window |
| SignalStory.ArmsWithinWindow | strategy/state_machine.py:188-256 | for a window of at least two, a retest is armed at most that many unblocked candles after its sweep |
| SignalGates.SignalIff | strategy/state_machine.py:155-323 | step k of any run signals exactly when it is a lower-timeframe candle, a zone is armed and has waited fewer than twelve candles, the candle reaches it, its minute is tradable, and it closes in its direction's half of the current base; BLOCKED plays no part |
| SignalGates.BlockedStepSignalsIff | strategy/state_machine.py:161-182 | a step that leaves the instrument BLOCKED signals exactly when the armed zone's gates are passed; unarmed it does nothing |
| SignalGates.BlockSilencesIff | strategy/state_machine.py:116-182 | at any blocked point of any run: no candle that leaves the block standing can signal exactly when no candle could, or the block's level lies between the zone and the half of the base the entry must close in |
| SignalGates.ReportsIff | strategy/state_machine.py:161-302 | an armed step of any run reports a trigger, a stale retest, and a filtered signal with its reason, exactly when it should |
| SignalGates.PassedIff | strategy/state_machine.py:304-323 | a signal is announced with its own time, direction and stop, and only then |
| SignalGates.CanSignalIff | strategy/state_machine.py:161-302 | some next candle signals exactly when a zone still waits and some minute is tradable |
| SignalDirections.SignalDisplacement | strategy/state_machine.py:217-243 | behind every signal of every run the arming candle is a displacement: body over the multiple of the average range of the up to five candles before it, close beyond all of them |
| SignalDirections.SignalDirectionsIff | strategy/state_machine.py:220-253 | on candles that close within their range, every signal's gap points the way of its displacement and of the arming candle's body; it points the sweep's way exactly when that body does |
| SignalDirections.GapFollowsBody | strategy/displacement.py:91-113 | a gap completed by a displacement points its way |
| SignalDirections.SweepAgainstGap | strategy/state_machine.py:220-253 | a run with a bearish signal on a bullish gap |
| SignalExamples.WindowBoundsDelayIff | strategy/state_machine.py:223-263 | the window bounds that delay for every run exactly when it is at least two |
| SignalExamples.LateArmingFromFirstCandle | strategy/state_machine.py:248-264 | a run with window one that arms two candles after the sweep |
| SignalExamples.LateArmingFromSecondCandle | strategy/state_machine.py:248-264 | a run with no window that arms one candle after the sweep |
| SignalExamples.SignalsWhileBlocked | strategy/state_machine.py:161-182 | a run whose blocked machine signals, for the exact condition see SignalGates.SignalIff |
| SignalStory.BlockedIsIdle | strategy/state_machine.py:181-186 | blocked or without a base, and unarmed: a candle is only remembered; no sweep, arm or signal |
| SignalStory.HistoryIsRecent | strategy/state_machine.py:156-157 | the remembered candles are the last thirty lower-timeframe inputs |
| SignalState.BoundedHistoryRefinesFull | strategy/state_machine.py:156-264 | keeping thirty candles gives, step by step, the events and decisions of a machine that keeps them all |
| SignalState.StepLooksBackSix | strategy/state_machine.py:217-251 | a step depends on the history only through its last six candles |
| SignalState.BlockedIff | strategy/state_machine.py:105-152 | from any stored record, BLOCKED holds exactly when the restored block still stands or the latest stop-out was followed by no candle returning to its level and no break of the base, and it carries that block's level |
| SignalState.NoStopOutNoBlock | strategy/state_machine.py:105-114 | a run without a stop-out is blocked exactly while the restored block stands |
| SignalState.EngineOfRun | strategy/state_machine.py:137-144 | the base engine sees exactly the higher-timeframe candles and the stored base agrees with memory throughout |
| SignalState.BaseOfRun | strategy/state_machine.py:137-152 | over a run the base, in memory and level by level in the store, has the high, low and open time of the last candle to close outside its predecessor's range, else it is the restored one |
| SignalState.BaseInOrder | strategy/rolling_base.py:64-93 | from a stored base in order, candles in order keep low <= high over every run |
| SignalState.BaseAnnouncedIff | strategy/state_machine.py:137-143 | a new base is announced exactly when a higher-timeframe candle closes outside the range of the one before, with that candle's high and low |
| SignalMachine.InstrumentStateMachine.constructor | strategy/state_machine.py:65-103 | a new machine is fresh on its stored record and adds only its own record |
| SignalMachine.InstrumentStateMachine.OnLtfCandleClose | strategy/state_machine.py:155-264 | the object's state, its event log and the returned decision are those of the step; other instruments' records are unchanged |
| SignalMachine.InstrumentStateMachine.OnHtfCandleClose | strategy/state_machine.py:137-152 | the same for a higher-timeframe candle, including the lifted block |
| SignalMachine.InstrumentStateMachine.OnSlHit | strategy/state_machine.py:325-329 | the record is blocked at the level and nothing else changes |
| SignalMachine.InstrumentStateMachine.FinalizeSignal | strategy/state_machine.py:266-323 | consumes the pending sweep and emits or filters the signal as the step says |
| SignalMachine.InstrumentStateMachine.CheckVoidReset | strategy/state_machine.py:116-134 | lifts a block exactly when the candle's range holds its level |
| SignalTrades.StopSideIff | strategy/state_machine.py:292-309 | at any point of any run: whatever signal the next candle gives has its stop on the losing side exactly when none can be given or the stop clears the middle of the current base |
| SignalTrades.StopOutCostsOneR | backtest/spot_trade_simulator.py:78-147 | under that condition a direct stop-out of a signal of any run costs exactly one R |
| SignalTrades.UnchangedBaseClears | strategy/state_machine.py:292-309 | the condition holds whenever the base is still the one the sweep was found against |
| SignalTrades.StopCanBeOnWrongSide | strategy/state_machine.py:292-309 | a run with a base break after the sweep whose bearish signal has its stop below the entry |
| SignalTrades.StopBeyondSweptLevel | strategy/state_machine.py:306-309 | the stop of every signal of every run is the swept level moved out by the whole pierce and the buffer |
| Routing.CandleRouter.OnCandleClose | main.py:139-159 | a closed candle steps its own instrument's machine by timeframe and leaves every other machine and every other stored record as it was; the spot price and the hand-over are LiveTrading.LiveSession.OnClosed |
| Retest.WatcherState | strategy/retest_trigger.py:49-83 | the watcher after any candles, read off the first touch |
| Retest.FiresOnFirstTouch | strategy/retest_trigger.py:61-83 | check returns true exactly on the first touching candle among twelve |
| Retest.RetestWatcher.Check | strategy/retest_trigger.py:61-83 | the object follows the watcher step |
| RollingBase.BaseIsLastBreak | strategy/rolling_base.py:64-93 | the base has the high, low and open time of the last candle that closed outside its predecessor's range, else it is the restored base |
| RollingBase.RestartDivergence | strategy/rolling_base.py:41-93 | a restarted engine differs from one that kept running only if the first candle breaks, and only until the next break |
| RollingBase.RollingBaseEngine.constructor | strategy/rolling_base.py:41-58 | restores the base iff both bounds are stored, creating the record if missing |
| RollingBase.RollingBaseEngine.OnHtfCandleClose | strategy/rolling_base.py:64-93 | returns whether the candle closed outside the one before, and then holds and stores its high and low; store and memory agree and no other record is written |
| RollingBase.RollingBaseEngine.PersistBase | strategy/rolling_base.py:95-100 | only the base of its own record changes |
| RollingBase.StateStore.Get | strategy/state_store.py:79-82 | inserts a default record for an unknown key and nothing else |
| RollingBase.StateStore.Save | strategy/state_store.py:84-90 | replaces the record of its key |
| Patterns.SweepMeaning | strategy/sweep_detector.py:37-55 | a sweep is reported exactly for a wick through a level with the close back; both sides at once count as bearish |
| Patterns.SweepsBothIff | strategy/sweep_detector.py:38-55 | a bearish sweep hides a bullish one exactly when the candle pierces both levels and closes between them, and there is such a candle |
| Patterns.DisplacementMeaning | strategy/displacement.py:56-80 | a displacement is exactly a body over the multiple of the average range closing beyond every lookback candle in its own direction |
| Patterns.AverageMeaning | strategy/displacement.py:29-37 | the average range is the sum of high - low over the candles, divided by their number |
| Patterns.RatioOfDisplacement | strategy/displacement.py:56-80 | its ratio is the body over the average range |
| Patterns.SwingBounds | strategy/state_machine.py:218-219 | being beyond the recent swing is being beyond every recent candle |
| Patterns.FvgIsTheGap | strategy/displacement.py:91-113 | a gap is found exactly when the outer candles share no price, and is the open interval between them, bearish exactly when the first lies above, formed at the middle candle |
| Patterns.TradingWindowMeaning | strategy/filters.py:21-37 | an entry is allowed exactly when its minute is in no blocked window and in some probable one |
| Patterns.HasMinuteIff | strategy/filters.py:21-37 | in times of day: from a window's start to just before its end, seconds dropped |
| Patterns.FirstInsideFinds | strategy/filters.py:21-37 | the early-return scan finds a window exactly when one contains the minute, and then the first |
| Patterns.BiasMeaning | strategy/filters.py:46-68 | bearish signals pass in the half of the base nearer its low, bullish ones nearer its high, both at the middle |
| Buckets.BucketCharacterised | data_feed/candle_aggregator.py:56-85 | the bucket start is the one boundary congruent to 09:15 of the day whose window holds the time |
| Buckets.AnchoringIsNoOpIff | data_feed/candle_aggregator.py:69-71 | session anchoring equals midnight anchoring for all times exactly when N divides 555 |
| Buckets.MonotoneWithinDay | data_feed/candle_aggregator.py:56-85 | bucketing keeps time order within a day, for every N |
| Buckets.MonotoneIffSeamOk | data_feed/candle_aggregator.py:80-85 | bucketing keeps time order across all days exactly when the last bucket of a day does not pass the first of the next |
| Buckets.ConfiguredTimeframes | data_feed/candle_aggregator.py:80-85 | 3, 5, 15 and 75 minutes keep order; 7 would not |
| Buckets.BucketStaysInDay | data_feed/candle_aggregator.py:80-85 | for N dividing 15 a bucket starts on the day of its times |
| Buckets.BucketsNest | data_feed/candle_aggregator.py:76-85 | for N dividing 15 and M, the M-bucket of an N-bucket start is the M-bucket of the time |
| Resampler.ResampledCandles | data_feed/candle_resampler.py:38-58 | one candle for every bucket that holds a row: opened by its first row, closed by its last, spanning and reaching its extremes, counting its rows |
| Resampler.ResampleSnoc | data_feed/candle_resampler.py:38-58 | collecting each bucket's bars equals the dict loop, one row at a time |
| Resampler.CountsConserved | data_feed/candle_resampler.py:38-58 | tick counts sum to the number of rows, in any input order |
| Resampler.OrderDistinct | data_feed/candle_resampler.py:38-58 | no bucket appears twice |
| Resampler.ResampleWellFormed | data_feed/candle_resampler.py:38-58 | chronological rows (within a day, or for an order-keeping N) give strictly increasing open times |
| Resampler.SeamConditionNeeded | data_feed/candle_resampler.py:38-58 | chronological rows that come out unordered for N = 7 |
| Resampler.AscendingSnoc | data_feed/candle_aggregator.py:111-125 | on ascending buckets batch resampling is append-or-merge on the last candle, the streaming step |
| Resampler.ResampleComposes | data_feed/candle_resampler.py:38-58 | resampling to N dividing 15 and then to a multiple of N gives the open times and OHLC of resampling directly |
| Resampler.CutHistoryIff | main.py:246-248 | the first candle of a history cut short is one of the whole history exactly when the cut falls between two buckets |
| Resampler.ResampleConcat | data_feed/candle_resampler.py:38-58 | rows cut between two buckets are resampled on either side of the cut |
| Aggregator.StreamEqualsBatch | data_feed/candle_aggregator.py:97-133 | for every tick sequence, closed candles and the one in progress are the batch of the ticks with exactly the late-bucket ones removed |
| Aggregator.ReconnectRepairExact | data_feed/candle_aggregator.py:135-185 | after a bootstrap from history and any ticks, what was delivered since and the candle in progress are the batch of history and on-time ticks, whatever was held before |
| Aggregator.DeliveredOnceIff | data_feed/candle_aggregator.py:135-185 | across a reconnect and given ticks, candles are delivered in strictly increasing time order exactly when nothing had been delivered, or the history starts after the last candle delivered, or history and ticks stay within one candle |
| Aggregator.AlwaysDeliveredOnceIff | data_feed/candle_aggregator.py:135-185 | the same for all ticks that may follow: exactly the first two cases |
| Aggregator.OneCandleIff | data_feed/candle_aggregator.py:135-143 | history and ticks make one candle exactly when no row or tick leaves the first bucket |
| Aggregator.RepairDeliversTwice | data_feed/candle_aggregator.py:141-143 | two ticks and a history of the same minutes that deliver one candle twice |
| Aggregator.StreamInvariant | data_feed/candle_aggregator.py:97-143 | the invariant of a stream behind both: the state is the batch of what was accepted |
| Aggregator.LiveCandle.Update | data_feed/candle_aggregator.py:43-47 | one price merged into a candle in place |
| Aggregator.TimeframeAggregator.Ingest | data_feed/candle_aggregator.py:97-133 | a tick opens, extends, closes-and-opens or is dropped; delivered candles are never touched again, and the candle closed is returned |
| Aggregator.TimeframeAggregator.BootstrapFromHistorical | data_feed/candle_aggregator.py:135-143 | delivers all but the last candle and adopts that one, or does nothing |
| Aggregator.ResampleCandles | data_feed/candle_resampler.py:24-58 | the dict loop computes the batch, in fresh distinct candles |
| Aggregator.AbsorbRow | data_feed/candle_resampler.py:38-57 | one row of the loop, on dict, order list and candle |
| Aggregator.DictMore | data_feed/candle_resampler.py:38-57 | the dict of one more row is the dict updated at its bucket |
| Aggregator.EachFedOnce | data_feed/candle_aggregator.py:166-185 | going through the aggregators feeds each of the instrument's exactly once and no other |
| Aggregator.CandleAggregator.Register | data_feed/candle_aggregator.py:153-158 | adds an empty aggregator for a new key and keeps those that exist |
| Aggregator.CandleAggregator.IngestTick | data_feed/candle_aggregator.py:160-168 | every aggregator's state after the tick, and the candles it closed in the order of the on_close calls |
| Aggregator.CandleAggregator.BootstrapInstrument | data_feed/candle_aggregator.py:170-185 | every aggregator's state after the repair, each resampled to its own timeframe, and the candles handed out again in the order of the on_close calls |
| LiveOrder.CoarseBeforeItsLast | main.py:113-117 | over every tick stream: the tick that closes a coarse candle closes the last finer candle inside it on the same call, the coarse one first; every finer candle before lies inside or earlier, the next one after |
| LiveOrder.ClosedOnIsLive | data_feed/candle_aggregator.py:166-168 | that order is the one in which the registered aggregators call on_close |
| LiveOrder.AlwaysNested | data_feed/candle_aggregator.py:97-168 | for N dividing 15 and M, the N-minute candle in progress always lies inside the M-minute one in progress |
| RiskPlans.LevelsOrdered | execution/risk_engine.py:43-66 | on the paise grid the stop is at or below the entry exactly when the premium is at least 0.05; the target is never below the entry |
| RiskPlans.PlanIsSized | execution/risk_engine.py:43-66 | the lots are the most that fit the capital at risk and at least one; a stop-out exactly at the stop loses at most that capital, or one lot's risk, plus half a paisa a unit |
| RiskPlans.PlanInFigures | execution/risk_engine.py:43-66 | with d = spot distance times delta: the stop is d below the entry to half a paisa, or 0.05 when that is too low; the target is d times the reward ratio above it, the capital the given percentage, all on the paise grid; the lots fit |
| RiskPlans.StopNear | execution/risk_engine.py:46-59 | the stop alone, both sides |
| RiskPlans.TargetNear | execution/risk_engine.py:54-64 | the rounded target is the reward multiple of the stop distance to half a paisa |
| RiskPlans.RoundHalfEvenIff | execution/risk_engine.py:59-64 | rounding gives the nearest integer, the even one at a tie |
| Positions.PositionConserved | execution/position_manager.py:105-197 | under any accepted and rejected orders: filled = remaining + sold, profit = sum over accepted exits, the first target booked at most once, on_closed called exactly once, on closing |
| Positions.ClosedNotFlatIff | execution/position_manager.py:173-197 | for fills of at least one, remaining is never negative and is positive on a closed position exactly when the last order was a rejected final exit |
| Positions.NeverShortIff | execution/position_manager.py:149-151 | remaining stays non-negative on all paths exactly when the reported fill is at least one |
| Positions.BookedShare | execution/position_manager.py:150-151 | the booked quantity is the percentage to the nearest unit, held between one and what is left |
| Positions.StopRatchetsIff | execution/position_manager.py:134-171 | the stop never falls on any path exactly when it starts at or below the entry |
| Positions.PlacesPathOrders | execution/position_manager.py:122-188 | for any accepted and rejected orders: exactly the orders of the path are placed, each try at the target, then the exit at the stop or the runner's exit, with its quantity and price |
| Positions.ResultIsCash | execution/position_manager.py:160-188 | the realized result is what the accepted orders brought in less the entry price of what they sold |
| Positions.FollowsFirstPassage | execution/position_manager.py:122-197 | for any quotes and any accepted and rejected orders, following the path update by update equals its first-passage reading: the first accepted order at the target or price at the stop, then the first price at or below breakeven or the trail under the running maximum; a rejected exit closes with its shares left; state, stop and profit after every prefix |
| Positions.StopOutIsBounded | execution/position_manager.py:145-188 | a position sized by the risk engine and stopped out exactly at its stop loses at most the capital at risk, or one lot's risk, and half a paisa a unit |
| Positions.FirstFillIff | execution/position_manager.py:105-120 | the fill is the quantity of the first completed poll, the ordered one when none is reported, and nothing when no poll completes |
| Positions.PositionManager.OpenPosition | execution/position_manager.py:81-103 | a position results exactly when the entry is accepted and a fill is reported in time, with that fill |
| Positions.PositionManager.WaitForFill | execution/position_manager.py:105-120 | the first completed poll decides, the ordered quantity being the default |
| Positions.PositionManager.OnPriceUpdate | execution/position_manager.py:122-147 | position, order log and on_closed calls follow the price step |
| Positions.PositionManager.TakeTarget1 | execution/position_manager.py:149-171 | the same for booking the first target |
| Positions.PositionManager.CloseOut | execution/position_manager.py:173-197 | the same for closing |
| Session.TradesBounded | main.py:162-231 | over every interleaving: trades closed on the day + positions open <= limit + instruments - 1, and no tracked position is closed |
| Session.TradeLimitHoldsIff | risk_controls/daily_guard.py:53-73 | the day's trades never exceed the limit exactly when at most one instrument is traded |
| Session.DailyLossBounded | risk_controls/daily_guard.py:53-74 | if no trade loses more than L, the day's result stays above -(max loss + instruments * L) |
| Session.WorstDayInRupees | risk_controls/daily_guard.py:53-74 | that bound in rupees |
| Session.GuardCountsToday | risk_controls/daily_guard.py:44-94 | the guard's date is the last one brought to it by a signal for a free instrument, a closing trade or a status request; its figures are the number and sum of the trades closed since that date began; a new date lifts a halt |
| Session.CanTradeIff | risk_controls/daily_guard.py:53-69 | after any run: on a new date entries are allowed exactly when the limits leave room for any trade, on the guard's own date exactly when it is not halted, the day's result is above the loss limit and its trades are below the trade limit |
| Session.TrippedGuardOpensNothing | risk_controls/daily_guard.py:53-69 | halted, at the loss limit or at the trade limit, nothing is opened on the same day |
| Session.LimitEndsTheDay | risk_controls/daily_guard.py:53-81 | once the trade limit is reached, whatever events follow on that date, the positions held are among those held then |
| Session.LinkedAfterOpen | main.py:216-218 | the two position maps stay consistent exactly when the new contract was not tracked yet |
| Session.LinkedAfterClose | main.py:225-230 | closing a position keeps the two maps consistent |
| Session.ContractsOfOwnUnderlying | main.py:185-218 | when contracts belong to one underlying, a free instrument's contract is never tracked yet |
| Session.ContractsNeverShared | main.py:162-231 | over every run in which instruments are offered their own contracts, no two open positions share a contract |
| Session.DailyGuard.CanTrade | risk_controls/daily_guard.py:53-69 | the guard is of today, fresh if it was not; then it allows exactly within all three limits |
| Session.DailyGuard.RecordTradeClosed | risk_controls/daily_guard.py:71-81 | counts the trade on today's state, alone on it if the day is new |
| Session.OpenedBySignal | main.py:162-218 | the position a signal opens: the chosen contract, the reported fill, at its planned stop, with a plan made of the latest spot price, the signal's stop, the delta, the lot size and the risk percentage; nothing else held changes |
| Session.SignalWhileHeld | main.py:163-165 | a signal for an instrument that holds a position changes nothing |
| Session.PremiumTouchesOne | main.py:258-262 | a premium changes only the position it is of, and retires it only closed |
| Session.TradingSession.HandleSignal | main.py:162-223 | the session follows the signal step, whose plan is computed from the latest spot price, the signal's stop and the chosen contract; the maps stay consistent exactly when the contract is new |
| Session.TradingSession.OnTick | main.py:258-262 | a tick of a tracked contract drives its position and any other leaves them alone; the maps stay consistent and no closed position remains |
| Session.TradingSession.OnPositionClosed | main.py:225-231 | the trade is recorded and exactly that position leaves both maps |
| LiveTrading.LiveSession.OnClosed | main.py:139-159 | a closed candle steps its instrument's machine only, notes the spot price, and a signal is sized and handled at once; both position maps stay consistent |
| LiveTrading.LiveSession.OnSpotTick | main.py:263-264 | a tick of an underlying feeds its aggregators, each candle it closes is handled in the order of the calls, and the price is noted |
| LiveTrading.LiveSession.OnContractTick | main.py:259-262 | a tick of a tracked contract drives its position; machines, aggregators and every other position are untouched |
| LiveTrading.LiveSession.OnTick | main.py:258-264 | aggregators, machines and session after any tick, ready for the next; which contracts are tracked is read off the positions held |
| LiveTrading.LiveSession.OnReconnect | main.py:234-248 | aggregators, machines and session after a repair: the candles handed out again are handled like any others |
| LiveTrading.PlanRisksTheSignal | main.py:151-205 | a position opened by a closed candle is sized on that signal's entry and stop: its plan's risk points are those of the simulated trade of the signal |
| LiveRuns.MachinesAreRuns | main.py:139-159 | over every live run (ticks of underlyings and contracts, reconnects, halts): each instrument's machine is its own run on the candles it was shown, from its stored record |
| LiveRuns.SessionIsARun | main.py:162-264 | over every live run the session is a run of its events, whose signals are only those of configured instruments |
| LiveCandles.AllFollow | data_feed/candle_aggregator.py:97-185 | over every live run each aggregator is the fold of what its instrument was fed, and the candles handled of its key are those it handed out |
| LiveCandles.MachineSawTheBatch | main.py:139-159 | over every live run without a reconnect of the instrument: the candles of either timeframe its machine was shown, with the one in progress, are the batch of its on-time ticks |
| LiveCandles.LiveIsReplayIff | backtest/run_diagnostic_backtest.py:152-164 | over those runs: the machine was shown the inputs of the replay of the closed candles in the same order exactly when no closed coarse candle is made of more than one finer one, and then it is in the state of the replayed machine |
| LiveResults.LiveTradesBounded | main.py:162-231 | over every live run: trades of the day + positions open <= limit + instruments - 1, and no position held is closed |
| LiveResults.LiveLossBounded | risk_controls/daily_guard.py:53-81 | over every live run in which no trade loses more than L, the day's result stays above -(max loss + instruments * L) |
| LiveResults.LiveSweepsConserved | strategy/state_machine.py:155-323 | over every live run each instrument's sweeps are accounted for |
| LiveResults.LiveNeverBlocks | strategy/state_machine.py:325-329 | over every live run an instrument is blocked exactly while the block of its stored record stands |
| LiveResults.LiveEntryIff | main.py:151-217 | at any point of a live run with no position held: a closed candle opens one exactly when it is of the entry timeframe, passes every gate of its machine, and guard, selector and broker let the trade through |
| Session.SignalOpensIff | main.py:162-217 | a signal opens a position exactly when none is held, the guard allows it, a contract and a spot price are known, and the entry is accepted and filled |
| SpotTrades.WalkIsTwoPassages | backtest/spot_trade_simulator.py:92-129 | walking candle by candle equals two first passages, ties going to the stop |
| SpotTrades.DirectStopIff | backtest/spot_trade_simulator.py:95-114 | on candles of any finer bars: a direct stop-out is reported exactly when some bar touches the stop with target 1 touched before at most inside the same candle |
| SpotTrades.TicksThatStopFirst | backtest/spot_trade_simulator.py:99-108 | for any ticks after the entry, late ones included: an on-time tick at the stop with no tick before it at target 1 always gives a direct stop-out |
| SpotTrades.OptimisticAfterTarget1 | backtest/spot_trade_simulator.py:109-129 | prices whose coarser candle hides a breakeven stop, for the exact condition see SpotRunner.PessimisticIff |
| SpotRunner.RunnerOutcomeIff | backtest/spot_trade_simulator.py:95-129 | on candles of any finer bars: target 2, or the breakeven stop, is reported exactly when target 1 is booked in some bucket (not reached earlier, no stop up to its end) and the level is touched in a later bucket with the other not touched in between, ties going to breakeven |
| SpotRunner.PessimisticIff | backtest/spot_trade_simulator.py:99-129 | for bars that reach target 1 and return to breakeven before target 2: no continuation is reported as target 2 exactly when the return lies in a later candle than target 1, or target 1's candle touches the stop |
| SpotRunner.CandleOutcomeIff | backtest/spot_trade_simulator.py:95-129 | the same outcomes on any candles in time order |
| SpotTrades.ForwardFilterIsRedundant | backtest/run_diagnostic_backtest.py:172-173 | simulating on the candles after the entry or on all candles is the same |
| SpotTrades.ResolvedIsFinal | backtest/spot_trade_simulator.py:95-129 | a resolved trade is unchanged by later candles |
| SpotTrades.SimulationMirrors | backtest/spot_trade_simulator.py:70-168 | negating prices, exchanging highs and lows and flipping direction leaves outcome, times, points, rupees and R unchanged |
| SpotTrades.RByOutcome | backtest/spot_trade_simulator.py:135-168 | R depends on the outcome alone, and a direct stop-out is -1 with the stop on the losing side, +1 otherwise |
| SpotTrades.ResultScales | backtest/spot_trade_simulator.py:143-168 | rupees are the points times the lot, points are R times the risk |
| SpotTrades.SimulateSpotTrade | backtest/spot_trade_simulator.py:70-132 | the loop computes the walk and its result |
| SpotTrades.SimulatedTrade.ComputePnl | backtest/spot_trade_simulator.py:135-168 | points, rupees and R of the trade's final fields |
| ChunkedFetch.WindowsPartition | backtest/run_diagnostic_backtest.py:70-101 | consecutive windows of one to thirty days from first to last day, days // 30 + 1 of them |
| ChunkedFetch.EachDayOnce | backtest/run_diagnostic_backtest.py:74-101 | every day of the range is in exactly one window and no other day in any |
| ChunkedFetch.WindowIsFirstSuccess | backtest/run_diagnostic_backtest.py:79-98 | a window yields the first answer after nothing but rate limits, among four calls, else nothing |
| ChunkedFetch.SortIsStable | backtest/run_diagnostic_backtest.py:104-105 | the rows returned are a chronological permutation, equal times in their order |
| ChunkedFetch.FetchWithRetries | backtest/run_diagnostic_backtest.py:79-98 | the retry loop, in one to four calls |
| ChunkedFetch.FetchChunked | backtest/run_diagnostic_backtest.py:61-105 | in time order all rows that the broker answered, window by window, the number of windows, and one to four calls a window |
| ChunkedFetch.RowsAreAnswered | backtest/run_diagnostic_backtest.py:74-101 | the rows collected are those of the one successful attempt of every window that has one |
| ChunkedFetch.AnsweredMembers | backtest/run_diagnostic_backtest.py:79-100 | every row of every such attempt is among them, and no other |
| ChunkedFetch.FetchedRowsResample | backtest/run_diagnostic_backtest.py:115-123 | both timeframes of any fetch come out strictly increasing and count every row once |
| Diagnostic.MergeLeads | backtest/run_diagnostic_backtest.py:152-155 | the merged stream is a permutation in open-time order in which a 75-minute candle precedes the 3-minute candles opening with or after it |
| ReplayOrder.OrdersAgreeIff | backtest/run_diagnostic_backtest.py:152-164 | over every tick stream, replaying the closed candles feeds a machine the inputs of live trading in the same order exactly when no closed coarse candle is made of more than one finer one |
| ReplayOrder.OrderDecides | backtest/run_diagnostic_backtest.py:152-164 | an entry candle that signals in replay order and not in live order |
| Diagnostic.TallyStages | backtest/run_diagnostic_backtest.py:131-140 | the counters are the numbers of events of each kind; false sweeps are the rejected and the filtered, broken down by reason |
| Diagnostic.OneCauseEach | backtest/run_diagnostic_backtest.py:137-140 | the breakdown adds up to the false sweeps |
| Diagnostic.Replay | backtest/run_diagnostic_backtest.py:157-164 | the replay leaves machine, events and signals as the run of the merged stream |
| Diagnostic.SimulateAll | backtest/run_diagnostic_backtest.py:170-174 | one simulated trade a signal, as on the whole history |
| Diagnostic.RunDiagnostic | backtest/run_diagnostic_backtest.py:108-174 | from the broker's answers to the report: no report exactly when no window answered with a row; else, on all rows answered in time order, the signals of the merged 75- and 3-minute candles, counters that account for every sweep, and every signal's trade |

## Left out

- Broker adapters, feeds, login, web UI, credential storage, option selection, greeks, configuration and report text: their results are inputs or not modelled.
- Floating point: prices are exact reals and `round` is exact half-to-even, so binary representation error is not captured.
- Clocks and sleeps: `_wait_for_fill` and the retry loop take the sequence of answers they would see.
- JSON persistence of the store: it is a keyed map; a restart is a new engine on the same map.
- Aliasing of store records: the source's `get` hands out the stored object and mutates it before `save`; here records are values, and `updated_at`, the unused `retest_*` fields and void zone bookkeeping beyond flag and level are dropped.
- RollingBase.RollingBaseEngine.OnHtfCandleClose: requires a 75-minute candle, as the source asserts; the assertion failure itself is not modelled.
- RollingBase.StateStore.Save: keeps the record in memory; the time stamp and the file are dropped.
- `RollingBaseEngine.is_swept`: has no caller, and repeats the sweep test.
- The on_event hook: the events are a log, and the diagnostic counters are folded over that log after the replay instead of during it.  A reason text is a value for each text.
- Session.TradingSession.OnTick: is the contract branch; the other one is in `LiveTrading`, where the source's one session object is three (positions and guard, machines, candles).  Candles closed by a tick are collected and then handled, which is the same because handling them does not touch the aggregators.
- Routing.CandleRouter.OnCandleClose: is the machines' part of the callback; `LiveTrading.LiveSession.OnClosed` is the whole of it.
- LiveTrading.LiveSession.OnSpotTick: assumes the selector offers an instrument only contracts of its own. 
- SpotRunner.PessimisticIff: assumes target 2 lies beyond the entry, as it does for a positive risk and reward.
- SignalDirections.SignalDirectionsIff: assumes candles that close within their own range, as aggregated ones do.
- Session.TradesBounded: assumes signals come only for configured instruments, which the routing guarantees, and a trade limit of at least one.
- Session.DailyLossBounded: assumes a positive loss limit, as does `LiveResults.LiveLossBounded`.
- LiveOrder.CoarseBeforeItsLast: is about a stream without a reconnect in it, as are `LiveCandles.MachineSawTheBatch` and `LiveCandles.LiveIsReplayIff`; `Aggregator.ReconnectRepairExact` says what follows one.
- Live runs: instruments and timeframes are registered before the first tick, as `main.py:113-125` does.
- Positions.FollowsFirstPassage: is about fills of at least one; `Positions.NeverShortIff` says what a fill of zero does.
- Resampler.ResampleComposes: asks that the first timeframe divide 15, as 3, 5 and 15 do, so that no bucket crosses midnight; tick counts are not compared, since the second pass counts candles.
- Timeframes below one minute or negative, and the microsecond rounding of float epochs.
- Thread interleaving inside one callback: callbacks are atomic steps.
