# Paper broker and backtest: a Dafny model

This project models the trading simulator of the repository: the paper broker's ledger
(`app/broker/paper.py`), its exit engine and stop management, the candle loop of the backtest
(`app/backtest/engine.py`), and the small data structures and one-pass algorithms around them
(candle cache, candle builder, parent/child join, drawdown, indicators). `dafny verify dfyconfig.toml`
checks all of it.

## How it is organised

- `Common.dfy` (optional values, sums, stable sorting) and `Market.dfy` (candles, signals, metadata, positions, broker configuration).
- `OrderBook.dfy`: the greedy sweep that prices market orders, against every other way of filling them.
- `ExitTriggers.dfy`: which exit a candle triggers, and at what price. `ExitRules.dfy`: the exit rule stated once for
  both directions, which every trigger decision follows.
- `StopManagement.dfy`, `StopTheorems.dfy`, `StopRuns.dfy`: the ATR / breakeven / profit-lock / giveback / Bollinger
  stop update and the percentage trail, what one update guarantees, and what whole runs guarantee. `StopRules.dfy`: the
  new stop as the tightest of the prices that the rules offer, and what one update hands to the next.
- `Ledger.dfy`: the account as a value and what each broker call does to it. `LedgerMoves.dfy`: every call is a quiet
  step, an entry or an exit. `LedgerRuns.dfy`: what every run of calls keeps. `FillRules.dfy`: what is accepted, what it
  is filled at, for which fee, and what it opens. `FundingLedger.dfy`: funding as a rate on what the fills have left
  open. `Witnesses.dfy`: concrete inputs on which a property fails.
- `PaperBroker.dfy`: the broker as a class whose methods update its fields in place; each method is proved equal to the
  account function of `Ledger`.
- `SafetyGuard.dfy`: the entry cooldowns. `GuardRules.dfy`: what blocks an entry, read off everything the guard was
  told. `FundingClock.dfy`: funding boundaries.
- `Backtest.dfy`: the candle loop as a class. Beside its own fields it keeps ghost records, each with its own module.
  `BacktestTrace.dfy`: which decisions were put off, and which report answers each. `BacktestBooks.dfy`: the journal of
  broker calls, with the account before and after each, the engine's books, and the log that says which call each
  report came from. `BacktestPages.dfy`: one page per candle, which prescribes its broker calls, what the safety guard
  is told and what is put off, from the open to the equity point. `BacktestSchedule.dfy`: candle closes, funding and
  stop updates of a whole run. `BacktestFills.dfy`, `BacktestFunding.dfy`: what its decisions are filled at and what it
  pays in funding. `OpenEnding.dfy`: a two-candle run that ends with a position open.
- `CandleSeries.dfy`, `CandleBuilder.dfy`, `ParentJoin.dfy`, `Metrics.dfy`, `Indicators.dfy`, `VolumeProfile.dfy`.

Decimals are exact reals and timestamps are integers in milliseconds. Metadata dictionaries are maps from numbered keys to
values; a string value is represented by what the code reads off it (its lower-case form, whether it spells true, the
decimal it parses to). Strategies, the risk manager, the entry filter and the indicators enter a backtest only as
arbitrary per-candle inputs, so every run-level statement holds whatever they return.

## Properties the code does not have without a condition

The lemmas named say exactly when each holds; most come with a failing input.

- The broker does not compare an entry's action with its direction. A replay of the fills agrees with the account after
  every call of a run exactly when every accepted entry of the run buys for a long and sells for a short
  (`AlwaysReconciledExactly`, and `ReplayedExactly` for a backtest; `ContradictoryEntryBreaksReplay` is such an entry).
- A deferred decision is filled at the next open moved by the slippage, whatever price its signal names. An open of
  exactly zero counts as no price, and then the signal's own price is used (`FilledAtOpen`).
- On the entry candle the stop is compared with the close only, so the trigger price can lie outside the candle:
  exactly when force-close is off and the stop, or the target if the stop is not hit, was passed by the whole candle
  (`TriggerPriceTraded`, with the instance `EntryCandleStopOutsideRange`).
- A managed short whose stop is exactly zero can be loosened by a Bollinger stop (`ManageTightens` says exactly when,
  `ZeroStopIsLoosened` is such a short).
- A manual lock on a negative tradable base lowers the locked profit (`LockNeverReduces`); leverage takes a run there
  (`NegativeBaseReached`). A trade's profit lowers it exactly when the automatic lock's percentage is negative
  (`AutoLockNeverReduces`). Without either the locked profit stays non-negative (`LockedStaysNonNegative`).
- A long stopped out at a cost-covering stop stays within the second-order part of its costs for every such stop exactly
  when the stop slippage leaves a price and the exit fee leaves something of it (`CoveredLong`, `CoveredLongBreaks`).
- A run ends flat because open positions are closed at the last close, and that order is refused when the close is not
  positive. It ends flat exactly when the last close is positive or nothing was open when the last candle was done
  (`RunCandles`); `EndOpen` runs two candles, the last closing at zero, and ends with a position open.
- The kill switch closes positions the same way: what it leaves is flat exactly when the close is positive or nothing
  was open (`FlatAtFiring`).
- The rolling-loss rule looks at no more than 50 trades, so a larger window never triggers (`RollingWindowFits`).
- A drawdown that starts at or below zero is not counted (`NegativeStartHidesFall`); the figure bounds every fall exactly
  when it bounds those inside the curve's opening stretch of non-positive equities (`DrawdownBoundsAll`).
- A candle that straddles a funding boundary skips it (`BoundaryMissed`); on adjacent candles none is skipped exactly
  when no candle does (`FundingOncePerBoundary`).
- A candle builder that was closed in the middle of a bucket starts that bucket again (`IncreasingAcrossClose` says
  exactly when buckets still increase).
- `post_spike_lookback_candles = 1` compares the newest equity with itself: the look-back counts the newest point
  (`PastEquityIsPast`). The configuration's name suggests otherwise; the code is followed.

## Model

| member | source | states |
|---|---|---|
| OrderBook.CleanBookIsSwept | app/broker/paper.py:1004-1027 | whatever levels arrive, the stored side holds only positive prices and quantities, best price first for the taker |
| OrderBook.CleanBookKeeps | app/broker/paper.py:1004-1027 | and every usable level that arrived is kept, as often as it arrived |
| OrderBook.SweepFills | app/broker/paper.py:1908-1934 | the sweep takes the smaller of the order and the visible depth, so it completes exactly when the book is deep enough |
| OrderBook.SweepIsAllocation | app/broker/paper.py:1908-1934 | the sweep is one feasible way of taking quantities from the levels |
| OrderBook.SweepIsOptimal | app/broker/paper.py:1908-1934 | no other feasible allocation of the same total costs a buyer less or earns a seller more |
| OrderBook.DeepFillPrice | app/broker/paper.py:1876-1956 | with enough depth the fixed slippage plays no part: the fill price is the sweep's average |
| OrderBook.ShallowFillPrice | app/broker/paper.py:1908-1934 | what an order takes beyond the visible depth is filled at the base price moved by the slippage |
| OrderBook.FillPriceBetweenTouchedLevels | app/broker/paper.py:1876-1956 | with enough depth the fill price lies between the best level and the worst one touched |
| OrderBook.AveragePriceWorsens | app/broker/paper.py:1876-1956 | a larger order never gets a better average price from the same book |
| ExitTriggers.TimeStopAtClose | app/broker/paper.py:2541-2591 | reads off the guards of the stagnation exit: it is made exactly when the position is old enough and, as far as its rule asks, stagnant and not strong, and at the candle's close; a helper for the price range of a trigger |
| ExitTriggers.TriggerPriceTraded | app/broker/paper.py:2009-2247 | a trigger's price lies in the candle's range, except on the entry candle with force-close off when the stop, or the target if the stop is not hit, was passed by the whole candle |
| ExitTriggers.EntryCandleStopOutsideRange | app/broker/paper.py:2365-2380 | a concrete entry candle whose stop exit is priced outside its range |
| ExitRules.TriggerRule | app/broker/paper.py:2009-2247 | for every position and candle: a stop that is reached is taken, at the open if the candle opened beyond it, unless it opened beyond the target and not the stop; else a target that is reached is, at the open or at its level, wholly or in part; else the time stop when it is up; else nothing. A forced exit comes first |
| ExitRules.TargetAlwaysTaken | app/broker/paper.py:2382-2431 | on a later well-formed candle that does not trade through the stop, the target exit is made if and only if the candle trades through the target in force, at the better of target and open; there is no exit if and only if it does not and the time stop is not up |
| ExitRules.EntryCandleIsRecorded | app/broker/paper.py:2348-2363 | the entry candle is the one whose opening time, and interval if any, was recorded with the entry |
| ExitRules.ExitReasonsRead | app/backtest/engine.py:2113-2115 | an exit counts as a stop for the safety guard exactly when it is not forced and the stop was taken, or no target was: a time stop counts as one |
| ExitTriggers.EntryCandleStopRule | app/broker/paper.py:2365-2414 | on the entry candle the stop exit is taken, at the stop, exactly when the close, or a wick beyond the entry wick, has reached it; the target then does not matter |
| ExitTriggers.TriggerPriceHonest | app/broker/paper.py:2009-2247 | unless force-close is set, stop exits are never better than the stop, target exits never worse than the live target, gaps exit at the open and everything else at its level, and only managed targets close partially; `ExitRules.TriggerRule` says which of these exits is made |
| ExitTriggers.StopAlwaysHonoured | app/broker/paper.py:2365-2414 | after the entry candle, a candle trading through the stop always triggers; it stops out at the stop or worse exactly unless it opened through the target |
| ExitTriggers.AmbiguousCandleTakesStop | app/broker/paper.py:2009-2247 | after the entry candle, when stop and target are both touched inside the range, the stop is taken at its price and marked ambiguous |
| ExitTriggers.LongShortMirror | app/broker/paper.py:2009-2247 | reflecting prices and swapping direction reflects the trigger, for every stop and target: the long and short branches are mirror images |
| TrailPolicies.BbTrailRatchets | app/strategies/bollinger_trail_policy.py:92-150 | the Bollinger trail's stop never moves against the position, its stage never falls and it never deactivates |
| StopRules.NewStopIsTightest | app/broker/paper.py:345-898 | for every combination of settings and entries the new stop is one of the old stop and the prices offered by the ATR, breakeven, profit-lock, giveback and Bollinger rules, and none of these is tighter |
| StopRules.ManagedExactly | app/broker/paper.py:384-560 | a position is updated exactly when the ATR is positive, the position is not newer than the candle, some rule is on and it asks for management by its entries or for the giveback or Bollinger rule; otherwise it is left alone |
| StopRules.BreakevenExactly | app/broker/paper.py:612-632 | breakeven alone moves the stop if and only if the profit has reached the activation times the initial risk, the close is beyond the new level and that is tighter; the level is the offset or the costs, whichever is more |
| StopRules.ProfitLockExactly | app/broker/paper.py:633-650 | the same for the profit lock alone |
| StopRules.AdaptiveInPrices | app/broker/paper.py:2489-2511 | the adaptive thresholds as price distances: clamped ATR multiples, the lock's activation beyond breakeven and the trailing distance |
| StopRules.ProfilesByPatience | app/broker/paper.py:2464-2485 | the noise and profit factors of every named profile |
| StopRules.TargetRule | app/broker/paper.py:752-805 | the target is cleared, kept, placed so many ATRs from the entry, or moved away with the best close and never nearer, as its mode says |
| StopRules.SettingsFreeze | app/broker/paper.py:856-898 | after one update the ATR settings, the target mode and the best close are those in force, whatever later calls pass |
| StopRules.TrailRemembered | app/strategies/bollinger_trail_policy.py:92-150 | an update hands on whether the Bollinger trail is active, its stop, a forced exit beyond its limit, and the part to close at the target |
| StopRules.GivebackRemembered | app/broker/paper.py:651-712 | an update hands on the best move so far and whether the giveback rule protects part of it |
| StopRules.PctTrailExactly | app/broker/paper.py:2249-2346 | the percentage trail moves a stop if and only if the candle's best price has gained the activation and the price so far behind it is tighter, and it moves it there |
| StopManagement.AdaptiveOrdered | app/broker/paper.py:2455-2526 | for every profile the adaptive settings keep their order: breakeven before profit lock, lock inside its activation, all within their clamps |
| StopTheorems.PctTrailTightens | app/broker/paper.py:2249-2346 | the percentage trail never loosens the stop and only ever writes positive prices |
| StopTheorems.ManageTightens | app/broker/paper.py:616-817 | one management update never loosens the stop, for all combinations of ATR, breakeven, lock, giveback and Bollinger settings, except exactly the zero-stop short |
| StopTheorems.RaisesExactly | app/broker/paper.py:741-771 | the update fails exactly for a short whose ATR stop comes out at zero with no management stop |
| StopTheorems.ProtectionBetweenEntryAndClose | app/broker/paper.py:616-650 | when breakeven or profit lock apply and costs are positive, the protecting stop lies strictly between entry and close; `StopRules.BreakevenExactly` and `StopRules.ProfitLockExactly` say when they apply |
| StopTheorems.BufferNonNegative | app/broker/paper.py:1963-1976 | the cost buffer is never negative |
| StopTheorems.ProtectionCovers | app/broker/paper.py:616-650 | after an update with breakeven or lock in force, the stop leaves room for both fees and the stop slippage |
| StopTheorems.ManageKeepsCosts | app/broker/paper.py:817-898 | managing stops leaves the fee entries of the metadata and the holding untouched |
| StopTheorems.CoveredShort | app/broker/paper.py:1863-1874 | a short stopped out at a cost-covering stop, slippage and both fees included, nets at least zero |
| StopTheorems.CoveredLong | app/broker/paper.py:1863-1874 | a long then loses at most notional times (re + rx + s)(s + rx), whenever the stop slippage leaves a price and the exit fee leaves something of it |
| StopTheorems.CoveredLongBreaks | app/broker/paper.py:1863-1874 | otherwise some higher stop, covering its costs all the more, nets less than that |
| StopRuns.StopsOnlyTighten | app/broker/paper.py:266-320 | over every run in which the broker accepts no further entry on the pair, a position's stop only tightens, and entry price, direction and fee rate stay |
| StopRuns.OpenedFeesMatch | app/broker/paper.py:1158-1233 | a freshly opened position carries exactly the fee its recorded rate implies |
| StopRuns.ScaledFeesMatch | app/broker/paper.py:1349-1393 | a position scaled in at the same effective rate still carries exactly the fees that rate implies |
| StopRuns.EntryCosted | app/broker/paper.py:1053-1246 | an accepted entry, opening or scaling in at the same rate, leaves a position whose costs are all on record |
| StopRuns.ProtectingCovers | app/broker/paper.py:616-650 | a stop update that applies breakeven or profit lock leaves the account's position with a cost-covering stop |
| StopRuns.StaysCovered | app/broker/paper.py:266-320 | over every such run a cost-covering stop stays cost-covering, through partial closes too |
| StopRuns.StopHitNet | app/broker/paper.py:1471-1520 | a stop hit without an order book closes the position for exactly the net result the cost theorems speak of |
| StopRuns.CoveredStopOut | app/broker/paper.py:1863-1874 | end to end: from a covered stop, through any run, to a non-gap stop-out whose net result meets the bound |
| StopRuns.ProtectedStopOut | app/broker/paper.py:616-650 | end to end: from an accepted entry, through a run, an update that applies breakeven or profit lock and a further run, to a non-gap stop-out whose net result meets the bound |
| Market.EntriesReadBack | app/broker/paper.py:2887-2927 | the decimal, integer and boolean readers give back what was stored, and their default exactly where nothing readable is |
| Common.TruncateTowardZero | app/broker/paper.py:2887-2894 | integer entries are cut off toward zero |
| Market.FeeIsEffectiveRate | app/fees.py:11-12 | base fee plus tax equals the effective rate times the notional |
| FillRules.EntryAcceptedExactly | app/broker/paper.py:1053-1138 | an entry is accepted if and only if it is approved with a size and a direction, its pair is flat or may be added to, its base price is positive, and the equity at that price covers the planned loss and, with leverage, the notional |
| FillRules.EntryFills | app/broker/paper.py:1140-1246 | an accepted entry is filled from the market price, whatever the signal names, for the maker's or taker's fee with tax; it opens a position with the signal's direction, stop, target and entries, or adds to the one there is |
| FillRules.EntryPriced | app/broker/paper.py:1876-1956 | its price: the base moved against the trader by the slippage without a book, else what the levels cost, with the rest of the order at the moved price |
| FillRules.RefusalMarks | app/broker/paper.py:1840-1861 | a refused decision changes nothing but its pair's mark |
| FillRules.CloseExactly | app/broker/paper.py:1409-1534 | a close is accepted if and only if the position, its direction and a positive price are there; it sells or buys back all of it from that price, moved by the stop or the ordinary slippage |
| FillRules.PartialCloseExactly | app/broker/paper.py:1536-1722 | a partial close likewise, if the share asked for leaves a part on both sides; it closes exactly that share |
| FillRules.CloseSettles | app/broker/paper.py:1498-1516 | its result is the price move less its fee and the entry fees; a profit is locked away at the automatic percentage, a loss leaves the tradable base and the day counts it |
| FillRules.PartialCloseSettles | app/broker/paper.py:1622-1708 | a partial close settles in the same way, with its share of the entry fees |
| FillRules.CandleExactly | app/broker/paper.py:266-320 | a candle exits exactly as triggered, at the trigger's price moved by the slippage, and without a trigger moves the percentage trail |
| FillRules.DayRolls | app/broker/paper.py:266-275 | a candle of a new day starts its loss account and base afresh; within a day the loss grows by what the base loses |
| FillRules.DayIsUtc | app/broker/paper.py:266-275 | days run for 24 hours from one UTC midnight to the next |
| FillRules.RunBooksClean | app/broker/paper.py:1004-1027 | over every run the books kept are usable and sorted as the fill prices require |
| FillRules.BookReplaces | app/broker/paper.py:1004-1027 | a received book with a usable level replaces the pair's book with all its usable levels and touches nothing else; one without changes nothing |
| LedgerMoves.ScaledFees | app/broker/paper.py:1349-1393 | scaling in adds the cost bases and the entry fees exactly |
| LedgerMoves.ShareFees | app/broker/paper.py:1622-1708 | a partial close splits quantity and entry fees without remainder |
| LedgerMoves.CloseMoves | app/broker/paper.py:1409-1534 | a close is either refused, refreshing marks only, or a full exit of that pair at the reported fill |
| LedgerMoves.PartialCloseMoves | app/broker/paper.py:1536-1722 | a partial close is refused or an exit that keeps the rest, fees included |
| LedgerMoves.ExecuteMoves | app/broker/paper.py:223-264 | a decision moves the books only when approved, enters only on entry actions, exits only on exit actions, and its report says which |
| LedgerMoves.OnCandleMoves | app/broker/paper.py:266-320 | a candle never enters and exits at most its own pair's position |
| LedgerMoves.ManageExitsQuiet | app/broker/paper.py:817-898 | stop management fills nothing |
| LedgerMoves.MoveKeepsFiled | app/broker/paper.py:1177-1233 | positions stay filed under their own pair with positive quantity, the broker's contract terms and non-negative entry fees |
| LedgerRuns.StepMoves | app/broker/paper.py:223-345 | every broker call is a quiet step, a manual lock, an entry or an exit |
| LedgerRuns.EntryReconciles | app/broker/paper.py:1177-1233 | an entry keeps the replay in agreement if and only if it buys for a long and sells for a short |
| LedgerRuns.AcceptedEntryReconciles | app/broker/paper.py:1053-1246 | the same condition read off the decision before the call |
| LedgerRuns.AlwaysReconciledExactly | app/broker/paper.py:1053-1246 | over every run, the ledger is the replay of its fills after each call if and only if every entry the broker accepts buys for a long and sells for a short |
| LedgerRuns.RunReconciled | app/broker/paper.py:1471-1520 | after every run whose accepted entries do so, realised profit and fees are the sums over the fills, signed position size is buys minus sells, and realised profit is the replayed cash plus the cost basis |
| LedgerRuns.OpenPairsArePositions | app/broker/paper.py:984-986 | the open positions are exactly the pairs with non-zero inventory in the fills |
| LedgerRuns.ProfitIsReplay | app/broker/models.py:104-117 | at any prices, realised plus unrealised profit is replayed cash plus inventory value |
| LedgerRuns.EquityIsReplay | app/broker/paper.py:900-940 | after every such run the snapshot's equity is what the fills alone replay to, less funding |
| FundingLedger.PositionFunding | app/broker/paper.py:322-343 | at a positive rate a long pays the rate on its worth and a short receives it; at no positive price nothing is paid |
| FundingLedger.FundingIsWorth | app/broker/paper.py:322-343 | on a reconciled account a funding call costs exactly the rate on the worth of the inventory the fills have left, at the given prices or, for a pair without one, its entry price |
| FundingLedger.FundingAtPrices | app/broker/paper.py:322-343 | with a positive price for every open pair it is the rate on the inventory's worth at those prices |
| FundingLedger.FundingIsReplayed | app/broker/paper.py:322-343 | over every run whose accepted entries are aligned, the funding paid is the sum of that over its funding calls |
| LedgerRuns.ExitConserves | app/broker/paper.py:1498-1516 | an exit conserves the two ledgers if and only if it makes no profit or the whole profit is locked |
| LedgerRuns.RunConserved | app/broker/paper.py:932-940 | with the lock at 100%, tradable base plus locked profit equals starting equity plus settled results plus carried entry fees after every run, and flat tradable equity is the base less funding |
| LedgerRuns.RunDayBalanced | app/broker/paper.py:266-275 | without manual locks the day's recorded loss is exactly what the tradable base lost since the day's start |
| LedgerRuns.LockNeverReduces | app/broker/paper.py:966-972 | a manual lock conserves the two ledgers, and never lowers the locked profit if and only if the base is not negative |
| LedgerRuns.AutoLockNeverReduces | app/broker/paper.py:1498-1516 | a trade's result lowers the locked profit if and only if it is a profit, locked at a negative percentage |
| LedgerRuns.LockedStaysNonNegative | app/broker/paper.py:966-972 | unless a run locks by hand on a negative base, or profits at a negative percentage, its locked profit never falls below zero |
| FillRules.LocksExactly | app/broker/paper.py:966-981 | by hand what is asked for is moved between the two ledgers, or all there is if that is less |
| LedgerRuns.UnlockUndoesLock | app/broker/paper.py:974-981 | unlocking what was just locked restores both ledgers |
| LedgerRuns.OverrideStaysOff | app/broker/paper.py:266-275 | no broker call switches the daily-loss override on |
| Witnesses.ContradictoryEntryBreaksReplay | app/broker/paper.py:1053-1246 | a concrete accepted decision after which the replay of the fills disagrees with the account |
| Witnesses.ZeroStopIsLoosened | app/broker/paper.py:720-817 | a concrete short with a zero stop that an active Bollinger stop loosens |
| Witnesses.NegativeBaseReached | app/broker/paper.py:966-972 | a concrete leveraged run to a negative base, where locking by hand lowers the locked profit |
| PaperBroker.Broker.SweepBook | app/broker/paper.py:1908-1934 | the loop over levels computes the sweep |
| PaperBroker.Broker.FillPrice | app/broker/paper.py:1876-1956 | the fill price of the book-or-slippage rule |
| PaperBroker.Broker.OpenPnl | app/broker/paper.py:900-931 | adds up the profit of the marked positions, in any order |
| PaperBroker.Broker.TakeSnapshot | app/broker/paper.py:900-964 | refreshes the given marks and reports equity, tradable equity and the two ledgers |
| PaperBroker.Broker.MarginCheck | app/broker/paper.py:1724-1788 | refuses on bankruptcy, missing margin, uncovered risk or too much leverage, at the marked equity |
| PaperBroker.Broker.EnterPosition | app/broker/paper.py:1158-1407 | opening or scaling in changes the fields as the account function says (`FillRules.EntryFills`, `FillRules.EntryPriced` say what that is) |
| PaperBroker.Broker.OpenFromDecision | app/broker/paper.py:1053-1246 | all refusals of an entry and the entry itself, as the account function decides (`FillRules.EntryAcceptedExactly`) |
| PaperBroker.Broker.RecordResult | app/broker/paper.py:1498-1516 | profits are locked away, losses come out of the base and the day |
| PaperBroker.Broker.CloseFromSignal | app/broker/paper.py:1409-1534 | all refusals of a close and the close itself (`FillRules.CloseExactly`) |
| PaperBroker.Broker.PartialCloseFromSignal | app/broker/paper.py:1536-1722 | all refusals of a partial close and the split (`FillRules.PartialCloseExactly`) |
| PaperBroker.Broker.ExecuteDecision | app/broker/paper.py:223-264 | dispatch on approval and action; the broker stays valid |
| PaperBroker.Broker.ProcessCandle | app/broker/paper.py:266-320 | day reset, at most one exit, else the percentage trail (`FillRules.CandleExactly`, `ExitRules.TriggerRule`, `StopRules.PctTrailExactly`) |
| PaperBroker.Broker.UpdateDynamicAtrExits | app/broker/paper.py:345-898 | the stop update, or the exception it raises with nothing changed (`StopRules.NewStopIsTightest`, `StopRules.TargetRule` say what is updated to what) |
| PaperBroker.Broker.PayFunding | app/broker/paper.py:322-343 | the funding loop adds up what every position owes (`FundingLedger.PositionFunding`, `FundingLedger.FundingIsWorth`) |
| PaperBroker.Broker.UpdateOrderbook | app/broker/paper.py:1004-1027 | an empty cleaned book is ignored, any other replaces the pair's book (`FillRules.BookReplaces`) |
| PaperBroker.Broker.LockProfitByHand | app/broker/paper.py:966-972 | moves at most the tradable base to the locked ledger |
| PaperBroker.Broker.UnlockProfitByHand | app/broker/paper.py:974-981 | moves at most the locked profit back |
| SafetyGuard.TrailingLossesIsStreak | app/backtest/engine.py:171-197 | the losing streak is the longest all-losing suffix of the trades |
| SafetyGuard.PeakOfIsMaximum | app/backtest/engine.py:133-136 | the peak bounds every equity seen and is one of them or the start |
| SafetyGuard.RollingWindowFits | app/backtest/engine.py:184-195 | the rolling rule judges the newest trades of the whole history exactly when its window fits the 50 kept |
| SafetyGuard.PastEquityIsPast | app/backtest/engine.py:144-151 | the look-back reads the equity that many observations from the end, the newest included |
| SafetyGuard.CooldownsOutlast | app/backtest/engine.py:128-211 | no candle ends a cooldown, and no trade ends one still running at or after its exit, so no cooldown that is armed is lost (`GuardRules.ActiveExactly` says which are armed, and what they block) |
| SafetyGuard.SafetyState.ObserveCandle | app/backtest/engine.py:128-155 | the state stays the fold of everything observed; giveback and spike cooldowns are armed by their rules over all equities seen |
| SafetyGuard.SafetyState.ObserveTrade | app/backtest/engine.py:157-211 | the same for trades: stop, streak and rolling cooldowns are armed by their rules over all trades seen, a win ends an expired one and starts the re-entry guard |
| SafetyGuard.SafetyState.ReentryBlocked | app/backtest/engine.py:213-246 | re-entry in the direction of the last profit waits for its cooldown and a pullback, which is remembered |
| SafetyGuard.SafetyState.Try | app/backtest/engine.py:1114-1152 | a decision is blocked exactly when the cooldowns and the re-entry guard that follow from everything observed say so; a pullback seen is remembered (`GuardRules.BlockedExactly` reads this off the observations) |
| GuardRules.ActiveExactly | app/backtest/engine.py:94-211 | entries are blocked at a time if and only if a window is still open: after a fall by the threshold from the highest equity, a rise by the gain over the equity so many back, a losing stop exit, or a loss that completes a streak or fills the rolling rule and has not been won over since |
| GuardRules.BlockedExactly | app/backtest/engine.py:1114-1152 | a decision is blocked if and only if it enters inside an open window, or is approved and enters in the direction of the last profitable exit before its pause is over or before the price has come back |
| GuardRules.GivebackBlocks | app/backtest/engine.py:128-142 | after a giveback every entry before the end of its window is blocked, whatever was seen since |
| FundingClock.BoundaryIsMultiple | app/backtest/engine.py:2147-2157 | a candle is charged exactly when it ends where a multiple of the interval since the epoch does |
| FundingClock.FundingOncePerBoundary | app/backtest/engine.py:2147-2157 | on adjacent candles of any lengths no boundary is charged twice, and none is missed if and only if no candle straddles one |
| FundingClock.AlignedFundedOnce | app/backtest/engine.py:2147-2157 | so aligned candles whose length divides the interval miss none |
| FundingClock.BoundaryMissed | app/backtest/engine.py:2147-2157 | a five-hour candle straddles a four-hour boundary, which is missed |
| BacktestTrace.QueueAnswered | app/backtest/engine.py:1500-1529 | answering one pending decision takes it, and only it, off the list and files one report for it |
| BacktestTrace.QueueDeferred | app/backtest/engine.py:487-494 | deferring appends exactly that decision, on a day the kill switch has not fired |
| BacktestTrace.SeparateDrains | app/backtest/engine.py:1500-1529 | on candles that do not overlap nothing stays pending past the next open |
| BacktestTrace.EachDeferralAnsweredOnce | app/backtest/engine.py:533-542 | once nothing is pending every deferral has one report and no report answers two |
| BacktestTrace.NoLookAhead | app/backtest/engine.py:1500-1529 | on such candles the broker call that answers a deferred decision executes it at the very next candle's open, made after its generating candle was closed and before the next one is, or refuses it if there is none; `Backtest.Engine.FilledAtOpen` gives its fill price |
| BacktestTrace.KillSwitchBlocksEntries | app/backtest/engine.py:325-390 | once the kill switch has fired on a candle, no accepted entry carries the open of a later candle of that day |
| BacktestTrace.FlatBooks | app/backtest/engine.py:544-557 | books that agree with a flat account give its equity from the trade list and from the list of days |
| BacktestBooks.BookedOk | app/backtest/engine.py:1923-2016 | recording any broker report keeps trade list, open entry fees and daily results in agreement with the account, and each new trade is worth its price move less its fees |
| BacktestBooks.TradeTells | app/backtest/engine.py:1923-2016 | the trade listed for an exit carries the position's entry, this fill's exit, and the fees recorded for both |
| BacktestBooks.ForcedClose | app/backtest/engine.py:1876-1920 | a forced exit is accepted, and closes the position, exactly when the close is positive |
| BacktestFills.ForcedFill | app/backtest/engine.py:1876-1920 | and then sells or buys back the whole position, for the given reason, at that close moved against the trader by the slippage |
| BacktestBooks.DirectIsRefused | app/backtest/engine.py:495-512 | a decision that is not deferred is refused by the broker and trades nothing, so the second kill-switch check is never reached |
| BacktestBooks.LivedIsRun | app/backtest/engine.py:325-513 | after any number of the journal's calls the account is what the run of those calls arrives at |
| BacktestBooks.ReportsAreLogged | app/backtest/engine.py:343-351 | every report the broker gave is in the log exactly once, with the call it came from |
| BacktestPages.FiredIffLost | app/backtest/engine.py:1858-1873 | the kill switch fires exactly where the drawdown of the account just valued at the close, from the tradable base at the day's first open, reaches the limit with the override off |
| BacktestPages.DecisionPutOff | app/backtest/engine.py:487-494 | on a day that trades, a decision the guard lets pass is put off exactly once, as it was given, at the close |
| BacktestPages.DecisionTurnedDown | app/backtest/engine.py:495-512 | any other is executed at the close, in its own place among the candle's calls |
| BacktestPages.DecisionsOnPage | app/backtest/engine.py:407-512 | decisions are put off and refused in the order given, and the candle's page holds nothing besides |
| BacktestSchedule.CompleteOnSchedule | app/backtest/engine.py:325-513 | a completed run's candle closes, funding payments and stop updates are exactly those of its candles, in order |
| BacktestSchedule.RunFundsEachBoundaryOnce | app/backtest/engine.py:2130-2157 | on adjacent candles the scheduled funding never pays a boundary twice, and misses none if and only if no candle straddles one |
| Backtest.Engine.Record | app/backtest/engine.py:1923-2016 | updates the three books, and the safety state learns every trade |
| Backtest.Engine.Process | app/backtest/engine.py:1512-1529 | one broker call is entered in the journal with its account before and after, its report, and all books in agreement |
| Backtest.Engine.FillPending | app/backtest/engine.py:1500-1529 | the broker calls made are exactly the decisions generated before this open, in order, at this open's price and time; the rest keep waiting in order |
| Backtest.Engine.CloseCandle | app/backtest/engine.py:343-351 | one candle call, which does to the account what the broker does on that candle, and whose exit is recorded and reported once |
| Backtest.Engine.PayFundingIfDue | app/backtest/engine.py:353-359 | funding is paid exactly on boundaries and booked on the candle's day (`FundingIsInventoryWorth` says how much) |
| Backtest.Engine.ForceClose | app/backtest/engine.py:1876-1920 | every call made closes an open position at the candle's close, and everything is closed exactly when that close is positive |
| Backtest.Engine.CheckKillSwitch | app/backtest/engine.py:367-386 | values the account at the close and fires exactly when the day has lost its limit with the override off; then everything is closed and the day halted |
| Backtest.Engine.ManageStops | app/backtest/engine.py:1811-1823 | one stop update when enabled, or the exception with nothing changed |
| Backtest.Engine.Guard | app/backtest/engine.py:1114-1152 | a decision is replaced by a rejection exactly when the cooldowns that follow from everything observed block it, and it is itself remembered (`PassesExactly`) |
| Backtest.Engine.Decide | app/backtest/engine.py:460-512 | the candle's next decision is put off exactly when it trades and is not blocked, and else executed at the close; either way it is the only thing that happens |
| Backtest.Engine.FinishCandle | app/backtest/engine.py:388-392 | a halted day does nothing; any other updates the stops once and follows up every decision in order, putting off or refusing each |
| Backtest.Engine.Advance | app/backtest/engine.py:325-515 | one turn of the loop adds one page: the day's base, the fills at the open, exits, funding, the guard's observation, the loss rule, stop update, every decision, and the equity point, in this order and with these calls only |
| Backtest.Engine.CandleCalls | app/backtest/engine.py:325-386 | candle by candle, what the broker is called with and in which order, and which equity the safety guard sees: that at the close, after funding |
| Backtest.Engine.CurveTells | app/backtest/engine.py:389-531 | each equity point is the account, valued at the candle's close, after everything that happened on that candle; the last one too, unless a position was then still to be closed |
| Backtest.Engine.RejectLeftovers | app/backtest/engine.py:1532-1552 | whatever never saw a later open is refused at the last close, in order, one call and one report each |
| Backtest.Engine.RunCandles | app/backtest/engine.py:325-582 | a completed run ends flat if and only if the last close is positive or nothing was open when the last candle was done; then the final equity is starting equity plus trades less funding, and starting equity plus days |
| Backtest.Engine.KillSwitchFires | app/backtest/engine.py:367-386 | in every completed run the switch fires on exactly the candles where the drawdown from the base at the day's first open reaches the limit with the override off |
| Backtest.Engine.LimitDecides | app/backtest/engine.py:1858-1873 | the override is never on in a run, so the limit, a percentage of the starting equity, alone decides; a limit of zero fires on every candle |
| Backtest.Engine.NoEntryAfterKillSwitch | app/backtest/engine.py:367-390 | in every completed run on separate candles, once a day's loss has reached the limit at some candle, no report enters at a later candle of that day |
| Backtest.Engine.EntryAtOpen | app/backtest/engine.py:1500-1529 | every accepted entry of the run executes a deferred decision at the open of a later candle, at that candle's turn, and is filled at that open, unless it is zero, moved against the trader by the slippage |
| Backtest.Engine.FilledAtOpen | app/backtest/engine.py:1500-1529 | so is every accepted deferred decision, exits included; at an open of zero the signal's own price takes its place |
| Backtest.Engine.NoEntryCall | app/backtest/engine.py:367-390 | from where the kill switch has fired to the end of that day's last candle no broker call enters |
| Backtest.Engine.FlatAtFiring | app/backtest/engine.py:1876-1920 | where the loss has reached the limit the account is left flat if and only if the close is positive or nothing was open |
| Backtest.Engine.FlatAfterKillSwitch | app/backtest/engine.py:367-390 | left flat there, it is flat to the end of the day: every equity point from that candle on and the account behind it show no open position |
| Backtest.Engine.DeferredAnsweredOnce | app/backtest/engine.py:487-542 | in every completed run each deferred decision has exactly one report; it is the broker's report of a journalled call that executes the decision at the first open after its close, while that candle is opened, or refuses it at the end |
| Backtest.Engine.AllReported | app/backtest/engine.py:343-351 | every report of every broker call of the run is among its reports exactly once |
| Backtest.Engine.DecisionsPutOffOnce | app/backtest/engine.py:460-494 | a decision given on a candle is put off exactly once if the day trades and the guard lets it pass, and else never |
| Backtest.Engine.PassesExactly | app/backtest/engine.py:460-494 | the guard lets a decision pass if and only if it is approved and trades, no window opened by the candles, trades and tries before it is still open, and the last profit does not hold it back |
| Backtest.Engine.DecisionPut | app/backtest/engine.py:487-494 | what is put off is the decision as it was given, at its candle's close |
| Backtest.Engine.DecisionRefused | app/backtest/engine.py:495-512 | any other decision of a day that trades has a refusing report, of a call in its own place on that candle |
| Backtest.Engine.DecisionsInOrder | app/backtest/engine.py:407-512 | both happen in the order the decisions are given, and account for everything put off and executed after the kill switch on that candle |
| Backtest.Engine.RunIsBrokerRun | app/backtest/engine.py:284-305 | a backtest's account is the account of the run of its journalled broker calls, so all run theorems apply |
| Backtest.Engine.ReplayedExactly | app/backtest/engine.py:325-582 | over a completed run the ledger is the replay of its fills after every broker call if and only if every deferred decision accepted as an entry is aligned |
| Backtest.Engine.EquityIsReplayed | app/backtest/engine.py:544-557 | then the final equity is what the run's fills replay to at the last prices, less funding, and holdings and open positions follow from the fills |
| Backtest.Engine.FundingIsInventoryWorth | app/backtest/engine.py:353-359 | and the funding paid is the sum, over the candles on a boundary, of the rate on what the fills have left open at the candle's close |
| Backtest.Engine.GivenAligned | app/backtest/engine.py:460-494 | so it is whenever every decision given is aligned |
| Backtest.Engine.LedgersConserved | app/backtest/engine.py:301-302 | with the lock at 100% the two ledgers conserve value through a whole backtest |
| Backtest.Engine.FundingPaidOncePerBoundary | app/backtest/engine.py:2130-2157 | a completed run on adjacent candles pays no funding boundary twice, and misses none if and only if no candle straddles one |
| Backtest.RunBacktest | app/backtest/engine.py:272-323 | from any candles in any order: they are processed by opening time, those that open together in the order given, and the run's guarantees hold |
| OpenEnding.EndOpen | app/backtest/engine.py:544-557 | a concrete completed run whose last candle closes at zero and which ends with its position open |
| CandleSeries.AddCaches | app/data/candle_builder.py:243-260 | one addition keeps the newest entries of the dictionary with the new candle written |
| CandleSeries.CachedIffNewest | app/data/candle_builder.py:243-260 | for one pair and interval a candle is cached if and only if fewer than `maxlen` keys are newer; the cache is strictly increasing |
| CandleSeries.CandleSeries.Add | app/data/candle_builder.py:243-260 | over any additions in any order the cache holds the newest entries of the last-writer-wins dictionary, sorted, without duplicates |
| CandleSeries.CandleSeries.Extend | app/data/candle_builder.py:262-264 | the same for a list of candles |
| CandleBuilder.BucketContains | app/data/candle_builder.py:39-41 | buckets are aligned, contain their timestamps and follow their order |
| CandleBuilder.AggregateBounds | app/data/candle_builder.py:141-180 | high and low bound every trade and are trades, so built candles are well formed |
| CandleBuilder.AggregateTells | app/data/candle_builder.py:141-180 | it opens with the first trade's price and closes with the last one's, covers their times, and carries the sums of their quantities and quotes |
| CandleBuilder.BucketsIncrease | app/data/candle_builder.py:195-215 | for any order of trades each candle holds one bucket and, between two `close_current` calls, buckets strictly increase |
| CandleBuilder.IncreasingAcrossClose | app/data/candle_builder.py:217-222 | across a `close_current` buckets still increase if and only if the next candle's bucket is later than the one closed |
| CandleBuilder.GroupsHoldAccepted | app/data/candle_builder.py:195-215 | for any order of trades the groups hold, in order, exactly the pair's trades before which none opened a later bucket |
| CandleBuilder.StreamIsGroupBy | app/data/candle_builder.py:195-215 | for any order of trades each candle is everything accepted in its bucket |
| CandleBuilder.OrderedStreamIsGroupBy | app/data/candle_builder.py:195-215 | on a time-ordered stream nothing of the pair is lost or moved, and each candle is everything its bucket has |
| CandleBuilder.VolumeConserved | app/data/candle_builder.py:158-164 | candles carry exactly the volume of the trades grouped into them |
| CandleBuilder.StreamVolume | app/data/candle_builder.py:195-222 | finished candles and the open one carry the volume of everything accepted |
| CandleBuilder.WorkingCandle.ApplyTrade | app/data/candle_builder.py:158-164 | the running fields stay the aggregate of all trades applied |
| CandleBuilder.CandleBuilder.UpdateTrade | app/data/candle_builder.py:195-215 | what has been returned is the finished groups' aggregates, and the working candle is the open group's |
| CandleBuilder.CandleBuilder.CloseCurrent | app/data/candle_builder.py:217-222 | returns the open group's aggregate, if any, and starts over |
| ParentJoin.ExecutionCandlesByParent | app/backtest/engine.py:1397-1416 | for sorted children and any parents, the two pointers give each child to the first parent still open at its time, if it opens inside it, in order |
| ParentJoin.SeparateJoin | app/backtest/engine.py:1397-1416 | for separate parents this is the nested-loop containment filter |
| ParentJoin.PlacedAtMostOnce | app/backtest/engine.py:1406-1416 | a child opens inside at most one parent |
| Metrics.MaxDrawdown | app/backtest/metrics.py:102-120 | the largest fall from a positive equity to a later one, with the percentage of a fall that attains it |
| Metrics.DrawdownBoundsAll | app/backtest/metrics.py:102-120 | it bounds the fall between any two points if and only if it bounds the falls inside the opening stretch of non-positive equities |
| Metrics.NegativeStartHidesFall | app/backtest/metrics.py:112-113 | a concrete curve with a fall that is reported as none |
| Metrics.GrossIsWonAndLost | app/backtest/metrics.py:50-53 | gross profit and gross loss are what the winning and the losing trades came to |
| Metrics.NetPnlIsReturn | app/backtest/metrics.py:41-55 | net profit is the total return, and on a flat account gross profit less gross loss less funding |
| Indicators.SimpleMovingAverage | app/data/indicators.py:58-72 | the running sum is the window mean at every index from `period - 1` on |
| Indicators.MeanIs | app/data/indicators.py:58-72 | and that mean, times the window, is the window's sum |
| Indicators.ExponentialMovingAverage | app/data/indicators.py:75-99 | the loop computes the seeded recursion, and None before it |
| Indicators.EmaSteps | app/data/indicators.py:75-99 | each value enters with weight 2 of period + 1 |
| Indicators.EmaWithin | app/data/indicators.py:75-99 | the average stays within the range of the values seen |
| Indicators.Macd | app/data/indicators.py:137-182 | points exist exactly from index slow + signal - 2 on, each aligned with its own close |
| Indicators.WilderSteps | app/data/indicators.py:123-132 | each value enters with weight 1 of period |
| Indicators.WilderWithin | app/data/indicators.py:123-132 | a Wilder average stays within the range of its inputs |
| Indicators.RsiMeaning | app/data/indicators.py:340-346 | RSI lies in [0, 100], above 50 exactly when gains outweigh losses, 0 or 100 exactly when one side is absent |
| Indicators.RsiIsShare | app/data/indicators.py:340-346 | it is the gains' share of all movement, in percent, and 50 without movement |
| Indicators.ChangeSplits | app/data/indicators.py:102-134 | every price change is a gain or a loss, never both |
| Indicators.RelativeStrengthIndex | app/data/indicators.py:102-134 | values exist exactly from index `period` on, from the Wilder averages of gains and losses |
| Indicators.AverageTrueRange | app/data/indicators.py:218-250 | values exist exactly from index `period - 1` on, as the Wilder average of the true ranges |
| Indicators.TrueRangeCovers | app/data/indicators.py:229-242 | on a well-formed candle the true range is the distance from the lower of low and previous close to the higher of high and previous close |
| Indicators.AtrNonNegative | app/data/indicators.py:218-250 | on well-formed candles ATR is never negative |
| VolumeProfile.BinEncloses | app/data/indicators.py:278-283 | a price in range is counted in the bin whose edges enclose it |
| VolumeProfile.CandleInItsBin | app/data/indicators.py:278-283 | so every well-formed candle is counted around its typical price |
| VolumeProfile.Accumulate | app/data/indicators.py:278-283 | each bin gets exactly its candles' volume and none is lost |
| VolumeProfile.Profile | app/data/indicators.py:253-290 | adjacent bins span the price range and together hold the total volume |

## Left out

- Decimal rounding to 28 digits: exact reals instead. Sharpe ratio and Bollinger deviation go through floating-point square roots.
- `_run_intrabar` as a whole; only its candle join is modelled.
- Strategies, the risk manager, position sizing, the entry-safety filter and feature building: arbitrary inputs per candle.
- The trail and giveback policies are modelled as written in `app/strategies/bollinger_trail_policy.py` and `app/risk/profit_protection.py`; the stop theorems do not depend on the giveback rule's formula.
- Persistence and restoring of the broker's state, order and fill identifiers, slippage descriptions, display currencies, the snapshot's open notional, and all metadata that is only copied into fills and reports.
- Prorating the descriptive entry fields of a partially closed position; only the entry fees are split.
- `Backtest.Engine.ForceClose`: dictionaries have no order here, so positions are closed in an arbitrary order.
- In-place sharing of a metadata dictionary between a position and its report: metadata maps are values.
- Text: fee types arrive parsed, and an invalid one, which raises in the code, does not occur; exit reasons are a closed list with the one test the code makes on their wording.
- Snapshots taken once per signal (they mark the pair at the close it is already marked at), blocked-signal counters, funnel reasons, trade diagnostics and the annotated trade list.
- The second kill-switch check after a direct execution: `BacktestBooks.DirectIsRefused` shows it cannot be reached.
- A negative post-spike look-back, which Python's indexing would accept.
- `ParentJoin.ExecutionCandlesByParent`: children arrive sorted, as the caller sorts them.
- `CandleSeries.CachedIffNewest`: for several pairs in one cache, entries with equal opening times may be dropped in either order; `CandleSeries.CandleSeries.Add` states what then still holds.
