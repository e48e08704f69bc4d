# Futures trader decision core, modelled in Dafny

This project models the deterministic decision logic of an LLM-assisted futures day-trading system.
Claude is asked for a trade; the answer then passes through these stages:

- **Gap-zone ("FVG") engine.** A fair value gap is a three-bar price imbalance. Zones are detected,
  deduplicated so that the smaller of two overlapping same-type zones wins, marked filled by completed
  bars or live prices, and purged. `FairValueGaps.py` does this live; `src/fvg_analyzer.py` and
  `src/backtest_engine.py` do it for analysis and in batch.
- **Validators and scorers.** `src/ai_validator.py`, `src/edge_filters.py`, `src/signal_generator.py`,
  `src/trading_agent.py` and `src/enhanced_ai_agent.py` reject or grade a trade candidate.
- **Risk gate.** `src/risk_manager.py` is a NORMAL / COOLDOWN / HALTED state machine over the day's
  counters and the equity curve, with short-circuiting pre-trade checks.
- **Exit planner.** `src/exit_strategies.py` builds R-multiple targets and a prioritised exit recommendation.
- **Supporting units.** Round-number levels, performance analytics, the trade journal, setup-age counters,
  retry with back-off and a circuit breaker, configuration lookup and overrides, and system health.

There is one Dafny module per source file, plus `Common` (options, bars, JSON-like values, filter/count/sum)
and `Sorting` (Python's stable `list.sort(key=...)`).

Where the source is a pure function, the module is functions and lemmas. Where the source mutates an
object, the module has a `class` whose methods change its fields. Each method is proved against a
specification function, and the lemmas prove their properties about those functions:

- `FvgDisplay`
- `EnterpriseRiskManager`
- `DecisionValidator` and `ConfidenceCalibrator`
- `EnhancedTradingAgent`
- `MemoryManager`
- `PerformanceAnalytics`
- `MarketAnalysisManager`
- `RetryContext` and `CircuitBreaker`
- `ConfigStore`
- `Monitor`

Loops the source runs become `while` loops with invariants, for example `FindFvgsInData`,
`QueryTrades`, `MaxConsecutiveLoop`, `MaxDrawdownLoop`, `FindNearbyLevels` and `RunBacktest`.

Conventions:

- Prices are exact `real`s.
- Python's integer truncation, banker's rounding and negative list indexing are written out where the
  source relies on them.
- The wall clock, the random jitter, file and system measurements, and the LLM's parsed answers are parameters.

## Model

| member | source | states |
|---|---|---|
| FairValueGaps.TripleZone | FairValueGaps.py:81-120 | a three-bar window at i yields a bullish zone exactly when bar i's low clears bar i-2's high by at least the minimum gap, and a bearish zone exactly when, failing that, bar i's high is below bar i-2's low by at least the gap; the zone's bounds are those two prices, its size is top minus bottom, and it starts unfilled at index i |
| FairValueGaps.ScanZones | FairValueGaps.py:77-122 | the scan over the first n bars returns every zone any window produces, each exactly as that window produces it, in increasing index order, and nothing for fewer than three bars |
| FairValueGaps.FindFvgsInData | FairValueGaps.py:77-122 | the loop over the bar history returns the scan of the whole history |
| FairValueGaps.IsFvgFilled | FairValueGaps.py:124-136 | reports filled exactly when some bar strictly after the start index touches the near edge: a bullish zone's bottom with its low (low <= bottom), a bearish zone's top with its high (high >= top) |
| FairValueGaps.ApplyBarFill | FairValueGaps.py:258-269 | a bar only ever sets the filled flag, and sets it exactly when a bullish zone's bottom is at or above the bar's low or a bearish zone's top at or below its high; every other field is unchanged |
| FairValueGaps.ApplyPriceFill | FairValueGaps.py:273-291 | a live price only ever sets the filled flag, and sets it exactly when the price is at or below a bullish zone's bottom or at or above a bearish zone's top; every other field is unchanged |
| FairValueGaps.ZonesOverlapSymmetric | FairValueGaps.py:172-176 | the overlap test is symmetric and zones that merely touch at an edge do not overlap |
| FairValueGaps.CreatingBarNeverFills | FairValueGaps.py:152-161 | the bar that completes a gap never fills the gap it creates |
| FairValueGaps.WithoutLargerMembers | FairValueGaps.py:178-201 | removing the zones a smaller new zone supersedes keeps exactly the existing zones that are not superseded |
| FairValueGaps.AddZonePreservesNoOverlap | FairValueGaps.py:178-201 | adding a zone through the duplicate check keeps the active zones pairwise non-overlapping |
| FairValueGaps.FillByBarPreservesNoOverlap | FairValueGaps.py:254-269 | marking zones filled by a bar keeps them pairwise non-overlapping |
| FairValueGaps.FillByPricePreservesNoOverlap | FairValueGaps.py:271-291 | marking zones filled by a live price keeps them pairwise non-overlapping |
| FairValueGaps.CleanKeepsExactlyUnfilled | FairValueGaps.py:318-330 | cleaning keeps every unfilled zone and only unfilled zones, and cleaning twice equals cleaning once |
| FairValueGaps.NewFvgsPreservesNoOverlap | FairValueGaps.py:203-251 | looking for a new gap at the current bar keeps the active zones pairwise non-overlapping |
| FairValueGaps.LoadHistoricalPreservesNoOverlap | FairValueGaps.py:293-309 | loading the historical zones keeps the active zones pairwise non-overlapping |
| FairValueGaps.LoadZonesAddsOnlyUnfilled | FairValueGaps.py:306-309 | a zone that loading adds comes from the historical scan and no later bar has filled it |
| FairValueGaps.NewZoneSurvivesSameBarFill | FairValueGaps.py:138-161 | a new, non-duplicate zone found at the current bar is added and is not filled by that same bar's fill check |
| FairValueGaps.FvgDisplay.constructor | FairValueGaps.py:11-20 | a new display has no active zones and no processed bar |
| FairValueGaps.FvgDisplay.IsDuplicateZone | FairValueGaps.py:178-201 | answers whether a new zone overlaps an active one at least as small; when it does not, the larger overlapping zones are dropped and nothing else changes |
| FairValueGaps.FvgDisplay.FindNewFvgs | FairValueGaps.py:203-251 | the active zones become the result of the new-gap step at the current bar, and stay pairwise non-overlapping |
| FairValueGaps.FvgDisplay.CheckFvgFillStatus | FairValueGaps.py:254-269 | every active zone is fill-checked against the current bar and nothing else changes |
| FairValueGaps.FvgDisplay.CheckLiveFvgFills | FairValueGaps.py:271-291 | every active zone is fill-checked against the live price and nothing else changes |
| FairValueGaps.FvgDisplay.LoadHistoricalFvgs | FairValueGaps.py:293-309 | the active zones become the historical load over the bars, and stay pairwise non-overlapping |
| FairValueGaps.FvgDisplay.OfferUnfilledZones | FairValueGaps.py:305-309 | each historical zone that no later bar fills is offered to the duplicate check, in order |
| FairValueGaps.FvgDisplay.CleanOldFvgs | FairValueGaps.py:318-330 | the active zones become exactly the unfilled ones, in their original order |
| FairValueGaps.FvgDisplay.ProcessHistoricalBars | FairValueGaps.py:138-161 | with fewer than three bars, or when the last bar was already processed, nothing changes; otherwise the new-gap step runs at the last bar, then the fill check, and the last bar's time is remembered |
| FvgAnalyzer.ParseIsFilterThenConvert | src/fvg_analyzer.py:38-62 | the parsed bullish and bearish lists are exactly the unfilled zones of that kind, in input order, converted to zone data |
| FvgAnalyzer.CalculateDistance | src/fvg_analyzer.py:76-83 | the distance to a bullish zone is measured from its top, to any other zone from its bottom, as the level minus the price |
| FvgAnalyzer.NearestIsScan | src/fvg_analyzer.py:105-140 | the stable sort by absolute distance picks the same zone as the first-strict-minimum scan |
| FvgAnalyzer.ScanNearestSpec | src/fvg_analyzer.py:105-140 | there is no nearest zone exactly when no zone lies on the correct side of the price; otherwise the result is a zone on the correct side with the smallest absolute distance, the earliest such one |
| FvgAnalyzer.NearestSides | src/fvg_analyzer.py:102-142 | the nearest bullish zone lies wholly below the price at a negative distance, the nearest bearish zone wholly above it at a positive distance, each taken from its own list |
| FvgAnalyzer.FirstInZone | src/fvg_analyzer.py:169-178 | returns the first zone containing the price, or none when no zone contains it |
| FvgAnalyzer.FindActiveZone | src/fvg_analyzer.py:157-178 | a bullish zone containing the price wins over a bearish one; a bearish result means no bullish zone contains the price; there is no result exactly when neither list has a zone containing the price |
| FvgAnalyzer.FilterQualityFvgs | src/fvg_analyzer.py:195-207 | each side keeps exactly its zones that pass the size and age limits, and nothing else |
| FvgAnalyzer.AnalyzeMarketContextSpec | src/fvg_analyzer.py:220-241 | the counts equal the list lengths, and the nearest and containing zones reported all pass the quality filter and lie on their correct side of the price |
| Sorting.SortByKey | src/fvg_analyzer.py:119 | the sort returns a permutation of its input (same length, same multiset) |
| Sorting.SortByKeySorted | src/fvg_analyzer.py:119 | the sorted list is in non-decreasing key order |
| BacktestEngine.DetectFvgsHistorical | src/backtest_engine.py:95-131 | the detected zones are, one for one and in order, the zones of the three-bar scan over the whole history, each unfilled at age 0 |
| BacktestEngine.UpdateZone | src/backtest_engine.py:142-155 | a filled zone is left alone; an unfilled one gets its age as the current index minus its own index and becomes filled exactly when the bar reaches its far edge; no other field changes |
| BacktestEngine.UpdateFvgStatus | src/backtest_engine.py:142-155 | every zone in the array is updated in place against the current bar and index |
| BacktestEngine.FutureZoneIsAgedAndFilled | src/backtest_engine.py:142-155 | a zone whose index lies after the current bar is still aged (negatively) and fill-checked, since the backtest updates every detected zone |
| BacktestEngine.FillRulesDiffer | src/backtest_engine.py:149-155 | the backtest's rule (a bullish zone fills when the high reaches its top, a bearish one when the low reaches its bottom) and the live rule (a bullish zone fills when the low reaches its bottom) disagree on a concrete bar |
| BacktestEngine.GetActiveFvgs | src/backtest_engine.py:168-181 | keeps exactly the unfilled zones already formed by the current index and no older than the age limit |
| BacktestEngine.CheckExitConditions | src/backtest_engine.py:199-228 | a long exits at its stop when the low reaches it, else at its target when the high reaches it; a short mirrors this; the stop is checked first; any other direction never exits |
| BacktestEngine.ClassifyPnl | src/backtest_engine.py:294-299 | a trade is a loss below -0.5 points, a win above 0.5 and breakeven in between, each iff |
| BacktestEngine.CloseTrade | src/backtest_engine.py:288-311 | the closed trade's P&L is exit minus entry for a long and entry minus exit for a short, it is classified by that P&L, and a win's achieved R/R is its P&L over the stop distance while any other result records -1 |
| BacktestEngine.SimpleEntryTargetSide | src/backtest_engine.py:363-413 | an entry opens at the bar's close with a 20-point stop on the correct side, but its target is on the losing side of the entry: a long targets the nearest bullish zone's top, which lies below the price (modelled as written) |
| BacktestEngine.ProcessBar | src/backtest_engine.py:279-413 | with a position open, the bar either closes it into the log or leaves everything unchanged; without one, the log is unchanged and an entry is attempted only when some zone is active; the trade log stays well formed |
| BacktestEngine.RunBacktest | src/backtest_engine.py:263-319 | the backtest loop returns a trade log whose trades are well formed, classified, non-overlapping in time and all exited within the history |
| BacktestEngine.MaxPnl | src/backtest_engine.py:486 | the largest P&L of a non-empty list: at least every trade's and attained by one |
| BacktestEngine.MinPnl | src/backtest_engine.py:487 | the smallest P&L of a non-empty list: at most every trade's and attained by one |
| BacktestEngine.BySetupType | src/backtest_engine.py:462-476 | the per-setup breakdown has only the keys fvg_only and level_only, has a key exactly when some trade has that setup type, and each entry counts between one and all of the trades |
| BacktestEngine.CalculateBacktestStats | src/backtest_engine.py:437-490 | no trades give all-zero statistics; otherwise the total is the trade count, the win rate is wins over decided trades, and every trade's P&L lies between the max loss and the max win |
| BacktestEngine.TradeStats | src/backtest_engine.py:451-490 | for a non-empty log the same totals, win rate and P&L bounds hold |
| BacktestEngine.StatsCountsAddUp | src/backtest_engine.py:451-453 | wins, losses and breakevens add up to the total when every trade is classified |
| BacktestEngine.LoopTradesAreClassified | src/backtest_engine.py:294-299 | every trade the backtest loop records has one of the three results |
| RiskManager.CooldownRemaining | src/risk_manager.py:335-344 | the remaining cooldown is never negative, is zero without a recorded loss, and otherwise is the loss time plus the cooldown minus now whenever that is positive |
| RiskManager.RiskReward | src/risk_manager.py:221-223 | the ratio is non-negative, and with a non-zero stop distance it times the stop distance equals the target distance |
| RiskManager.PreTradeFirstFailure | src/risk_manager.py:181-250 | the pre-trade check allows exactly when none of the fifteen checks fails, and otherwise refuses with the first failing check in the source's order |
| RiskManager.PreTradeEffects | src/risk_manager.py:183-207 | the check changes only the state and its reason: it halts on a daily-loss or consecutive-loss refusal, lifts an expired cooldown back to normal, and never leaves an allowed trade halted; the current drawdown never affects the verdict |
| RiskManager.PreTradeAllowedBounds | src/risk_manager.py:209-250 | an allowed trade has a stop distance within the limits, size within the per-trade and daily volume caps, stop and target on the correct sides of the entry, and R/R and confidence at least their minimums |
| RiskManager.EntryMetrics | src/risk_manager.py:252-257 | an entry adds one trade, one open position and its quantity to the day's volume, stamps the trade time, and changes nothing else |
| RiskManager.ExitPnl | src/risk_manager.py:275-279 | a long earns (exit - entry) times quantity, anything else (entry - exit) times quantity |
| RiskManager.CheckRiskLimits | src/risk_manager.py:388-403 | a breached daily-loss, consecutive-loss or drawdown limit halts trading; otherwise nothing changes; only the state and its reason ever change |
| RiskManager.ExitCountersSpec | src/risk_manager.py:281-306 | an exit adds its P&L to the day and the equity, closes one position without going below zero, resets the loss streak on a win, extends it and stamps the loss time on a loss, and leaves the counters alone otherwise |
| RiskManager.ExitEquitySpec | src/risk_manager.py:296-306 | after an exit the peak equity is at least the current equity and the old peak, and with a positive peak the drawdown is the percentage fall from it |
| RiskManager.ExitStateSpec | src/risk_manager.py:285-324 | after an exit trading is halted exactly when it already was or a limit is breached, a breach always halts, and otherwise a loss starts the cooldown when one is configured |
| RiskManager.PositionSizeSpec | src/risk_manager.py:405-427 | the size is the base capped at the maximum, halved after two straight losses or near the daily trade limit, quartered when both apply, never below 1 |
| RiskManager.CanTradeIsPrefix | src/risk_manager.py:429-442 | the quick can-trade answer agrees with the first three pre-trade checks: a refusal there is the pre-trade refusal, and a pre-trade allowance implies it allows |
| RiskManager.ResetDaily | src/risk_manager.py:143-156 | the daily counters go to zero; the streak, equity, drawdown, open positions and last trade and loss times are kept; a halt is lifted to normal with its reason cleared, any other state keeps its state and reason |
| RiskManager.HaltedIsSticky | src/risk_manager.py:183-184 | once halted, every pre-trade check refuses with the halt reason and changes nothing, entries and exits keep the halt, and only the daily reset lifts it |
| RiskManager.EnterpriseRiskManager.constructor | src/risk_manager.py:76-86 | a new manager starts from the initial metrics with no trades for the day |
| RiskManager.EnterpriseRiskManager.ResetDailyCounters | src/risk_manager.py:143-156 | the metrics become their daily reset and the day's trade list is emptied |
| RiskManager.EnterpriseRiskManager.CheckPreTrade | src/risk_manager.py:158-250 | the verdict and the new metrics are those of the pre-trade check on the old metrics |
| RiskManager.EnterpriseRiskManager.RecordTradeEntry | src/risk_manager.py:252-263 | the metrics become the entry update of the old metrics |
| RiskManager.EnterpriseRiskManager.RecordTradeExit | src/risk_manager.py:265-325 | the metrics become the exit update for the trade's P&L, and the closed trade is appended to the day's list |
| RiskManager.EnterpriseRiskManager.RecordResultNow | src/risk_manager.py:285-294 | the P&L, position and win/loss bookkeeping step of an exit |
| RiskManager.EnterpriseRiskManager.UpdateEquityNow | src/risk_manager.py:296-306 | the equity, peak and drawdown step of an exit |
| RiskManager.EnterpriseRiskManager.StartCooldownNow | src/risk_manager.py:327-333 | the cooldown step after a loss |
| RiskManager.EnterpriseRiskManager.CheckRiskLimitsNow | src/risk_manager.py:388-403 | the metrics become the limit check of the old metrics |
| RiskManager.EnterpriseRiskManager.GetPositionSize | src/risk_manager.py:405-427 | returns the sized position, between 1 and both the base and the maximum for sensible inputs |
| RiskManager.EnterpriseRiskManager.QueryCanTrade | src/risk_manager.py:429-442 | allowed exactly when not halted, not in an unexpired cooldown and below the daily trade limit |
| RiskManager.EnterpriseRiskManager.ResumeTrading | src/risk_manager.py:444-452 | resumes (to normal, with no reason) exactly when halted; otherwise nothing changes |
| ExitStrategies.PartialSize | src/exit_strategies.py:113-114 | each partial is 33% of the quantity truncated, or 1 when that share is below 2 contracts: it is 1 exactly when 33 x quantity < 200, and otherwise 100 x size <= 33 x quantity < 100 x (size + 1) |
| ExitStrategies.ExitPlanLevels | src/exit_strategies.py:90-127 | the targets sit at 1R, 2R and 3.5R from the entry, breakeven triggers at 1.5R, trailing starts at target 2 with an offset of half R, the time limit is 20 bars; on the profit side and strictly ordered whenever the stop is off the entry |
| ExitStrategies.ExitPlanSizes | src/exit_strategies.py:112-115 | the three sizes add up to the quantity, the first two are equal and at least one, and the runner is non-empty exactly when the quantity is at least three |
| ExitStrategies.TrailingStop | src/exit_strategies.py:154-172 | a long trails to the highest price minus the offset exactly when that is above the current stop and below the price; a short mirrors this with the lowest price |
| ExitStrategies.MoveToBreakeven | src/exit_strategies.py:188-204 | a long moves to breakeven exactly when its stop is still below the entry and the price reached the trigger; a short mirrors this; any other direction only compares the price with the trigger |
| ExitStrategies.CheckPartialExit | src/exit_strategies.py:225-243 | no partial after two; partial k is taken exactly when the price reached target k+1, with size k+1; a count below -2 is an index error, as Python's negative indexing allows -1 and -2 |
| ExitStrategies.TimeExit | src/exit_strategies.py:259-267 | the time exit fires exactly when the trade has reached its bar limit and is not losing more than 10 points |
| ExitStrategies.DetectReversal | src/exit_strategies.py:285-322 | no reversal with fewer than three bars; otherwise a long reverses exactly when price crossed below the slow EMA from above or the last bar is a strong bearish bar, and a short mirrors this |
| ExitStrategies.RecommendationPriority | src/exit_strategies.py:344-404 | a reversal closes first, then the time exit; a close excludes any stop move or partial; without a close the partial check applies |
| ExitStrategies.StopMoveTightens | src/exit_strategies.py:384-402 | a recommended stop move always tightens the stop: to one point past the entry on the breakeven trigger, or to the trailing level on the trailing trigger |
| ExitStrategies.StopMoveWhenDue | src/exit_strategies.py:384-402 | conversely, for a position left open the stop is moved whenever a move is due: to one point past the entry when the breakeven trigger fires, else to the trailing level when the stop is at or past the entry, the price is past the trailing trigger and the level is nonzero and strictly between stop and price; otherwise it is not moved |
| EdgeFilters.SessionWindows | src/edge_filters.py:64-98 | the session is the half-open time window holding the time of day, and after hours outside 04:00-16:00 |
| EdgeFilters.DetectRegime | src/edge_filters.py:100-138 | each regime holds exactly when its EMA ordering (and for the strong trends the price and a spread over 20 points) holds, ranging otherwise; strength 90 for strong trends, 70 for trends, 50 ranging; volatile is never reported |
| EdgeFilters.EntryConfirmation | src/edge_filters.py:140-239 | confirmed exactly when the boost is positive; fewer than two bars, a price away from the zone or a zero-range bar never confirm; past those guards a long is judged by the long patterns and a short by the short patterns on the last two bars; any other direction is never confirmed |
| EdgeFilters.LongPattern | src/edge_filters.py:176-215 | a long is confirmed exactly when the last bar is a hammer (lower wick over 60% of the range, body under 30%), engulfs the previous bar upward, is a strong up bar (body over 60%) not below the zone, or dips below the zone and closes above its bottom; the reason and boost (0.15, 0.20, 0.10, 0.15) are those of the first that holds |
| EdgeFilters.ShortPattern | src/edge_filters.py:176-237 | the short mirror: shooting star, bearish engulfing, strong down bar not above the zone, failed breakout above the zone's top, with the same boosts, the first that holds deciding |
| EdgeFilters.SetupQualityBounds | src/edge_filters.py:241-371 | the score lies in [23, 100]; grades A/B/C/D/F and the take/wait/skip recommendation follow the 85/70/55/40 thresholds; the size multiplier is 1.5, 1.0, 0.5 or 0 accordingly |
| EdgeFilters.FactorsPerComponent | src/edge_filters.py:261-340 | each of the four components contributes one factor, except an R/R in [2, 3), which contributes none |
| EdgeFilters.ShouldTakeTrade | src/edge_filters.py:373-401 | the trade is taken exactly when the quality recommendation is take, and the confidence passed in has no effect |
| EdgeFilters.LunchRangingNeverTaken | src/edge_filters.py:265-362 | a lunch-time entry in a ranging market without confirmation is never taken, whatever the R/R |
| AiValidator.MathErrors | src/ai_validator.py:134-161 | a long gets one error for each of: stop not below entry, target not above entry, stop not below the current price, and nothing else; a short mirrors this; any other direction gets none |
| AiValidator.PriceErrors | src/ai_validator.py:173-179 | one error for each of entry, stop and target that is not positive, and nothing else |
| AiValidator.DistanceErrors | src/ai_validator.py:181-192 | an entry more than 2% from a positive current price is too far; a stop under 10 points is too tight and over 100 points too wide, each iff; nothing else |
| AiValidator.SanityErrors | src/ai_validator.py:163-194 | the sanity errors are exactly as many as the price and distance conditions that hold |
| AiValidator.SanityPriceMembers | src/ai_validator.py:173-179 | each non-positive price is reported exactly when it is non-positive |
| AiValidator.SanityDistanceMembers | src/ai_validator.py:181-192 | the distance errors appear in the sanity errors under exactly their conditions |
| AiValidator.RiskRewardErrors | src/ai_validator.py:255-276 | a stop on the entry is a zero-risk error; otherwise there is an error exactly when the reward is below three times the risk, and it carries the ratio |
| AiValidator.TrendWarnings | src/ai_validator.py:196-224 | with both fast EMAs set, a long is warned exactly when EMA21 is below EMA75, as against a strong downtrend exactly when EMA21 < EMA75 < EMA150; a short mirrors this; a missing EMA or an unknown direction gives none |
| AiValidator.FvgWarnings | src/ai_validator.py:226-253 | a long is warned exactly when a bearish zone lies more than 50 points away, a short when a bullish one does |
| AiValidator.ConsistencyWarnings | src/ai_validator.py:278-299 | a flip warning is given exactly when there are two or more past decisions and the last was a different, non-NONE direction less than an hour ago |
| AiValidator.Validate | src/ai_validator.py:45-132 | a NONE decision is valid with nothing reported; a decision is valid exactly when it has no errors; the override reason is the first error |
| AiValidator.ValidateErrorRules | src/ai_validator.py:64-132 | for a decision other than NONE each rule's error is reported exactly when its condition holds on the chosen setup: each wrong-side stop or target for a long or a short, each non-positive price, a stop under 10 or over 100 points away, a zero risk, and (for a nonzero risk) a reward under three times the risk; an entry over 2% from a positive price is reported |
| AiValidator.ValidityIgnoresWarnings | src/ai_validator.py:98-118 | the errors, and so validity, do not depend on the EMAs, the zones, the history or the time |
| AiValidator.ValidLongBounds | src/ai_validator.py:80-118 | a valid long has 0 < stop < entry < target, a stop below the price, a 10-100 point stop distance, at least 3:1 reward and an entry within 2% of the price |
| AiValidator.ValidShortBounds | src/ai_validator.py:80-118 | a valid short mirrors the long bounds |
| AiValidator.UnknownDirectionSkipsMath | src/ai_validator.py:79-92 | a direction other than LONG, SHORT or NONE skips the math checks and is sanity-checked on the short setup |
| AiValidator.RecordOf | src/ai_validator.py:301-309 | the recorded decision keeps the direction, time and price, and the long setup's confidence unless it is zero |
| AiValidator.Recorded | src/ai_validator.py:311-315 | recording appends the decision and keeps at most the last ten |
| AiValidator.RecordedKeepsLastTen | src/ai_validator.py:311-315 | recording onto the last ten equals the last ten of the extended history |
| AiValidator.RecordedIsSuffix | src/ai_validator.py:311-315 | after any run of recordings the history is the last ten decisions ever recorded |
| AiValidator.RecordedKeepsDirections | src/ai_validator.py:301-315 | NONE decisions never enter the history |
| AiValidator.DecisionValidator.constructor | src/ai_validator.py:37-41 | a new validator has no history |
| AiValidator.DecisionValidator.ValidateDecision | src/ai_validator.py:45-132 | returns the validation against the old history and records every decision but NONE |
| AiValidator.FlipWarningOnHeldHistory | src/ai_validator.py:278-299 | on a history the validator keeps (no NONE entries) the flip warning fires exactly when the last decision differs and is under an hour old |
| AiValidator.FirstBucketFrom | src/ai_validator.py:374-380 | finds the first confidence bucket whose half-open range holds the confidence, or none |
| AiValidator.BucketedSpec | src/ai_validator.py:365-380 | an outcome with confidence in [0, 1) adds one trade, and one win for a WIN, to exactly the bucket holding it; other confidences change nothing |
| AiValidator.TrustVerdictSpec | src/ai_validator.py:414-433 | confidence is trusted exactly when there are at least 20 outcomes, at least two buckets with three or more, and the top bucket wins over 10 points more often than the bottom one |
| AiValidator.FourBuckets | src/ai_validator.py:416-426 | the totals and rated-bucket count over the four buckets |
| AiValidator.ConfidenceCalibrator.constructor | src/ai_validator.py:355-363 | a new calibrator has no outcomes and the four empty buckets |
| AiValidator.ConfidenceCalibrator.RecordOutcome | src/ai_validator.py:365-380 | the outcome is appended and bucketed |
| AiValidator.ConfidenceCalibrator.ShouldTrustConfidence | src/ai_validator.py:414-433 | returns the trust verdict of the current buckets |
| ConfigManager.JoinSplit | src/core/config_manager.py:247 | joining the pieces of a dotted key with the separator gives back the key |
| ConfigManager.SplitJoin | src/core/config_manager.py:247 | splitting a join of separator-free pieces gives back the pieces |
| ConfigManager.LookupNeverNull | src/core/config_manager.py:245-259 | with a non-null default, a lookup never returns null |
| ConfigManager.LookupFound | src/core/config_manager.py:250-259 | a dotted lookup either falls back to the default or descends into a non-null child of a dictionary under the first key |
| ConfigManager.OneSegment | src/core/config_manager.py:245-259 | a key without a dot returns the section's value when present and non-null, the default otherwise |
| ConfigManager.ParseEnvValue | src/core/config_manager.py:186-193 | a value with a dot becomes the float it spells (surrounding whitespace and single underscores between digits allowed) or is rejected; one without becomes the int it spells under the same grammar, and is kept as the string otherwise |
| ConfigManager.PaddingIgnored | src/core/config_manager.py:186-193 | whitespace around a value changes neither its int nor its float reading, nor a number it parses to |
| ConfigManager.PaddedInteger | src/core/config_manager.py:189-193 | every decimal integer surrounded by whitespace parses to itself |
| ConfigManager.UnderscoredThousand | src/core/config_manager.py:189-193 | the string 1_000 parses as the int 1000 |
| ConfigManager.GroupIsEnvInt | src/core/config_manager.py:189-193 | digits with single underscores between them form an integer override of the value of their digits |
| ConfigManager.ParseEnvIntRoundTrip | src/core/config_manager.py:189-193 | every integer written in decimal parses back to itself |
| ConfigManager.ParseEnvDecimal | src/core/config_manager.py:187-188 | digits, a dot and digits parse to the integer part plus the fraction part over its power of ten |
| ConfigManager.ParseOnePointFive | src/core/config_manager.py:187-188 | the string 1.5 parses as the float 1.5 |
| ConfigManager.OverridesFrame | src/core/config_manager.py:171-199 | overrides never add or remove a section, and a section no mapping names is untouched |
| ConfigManager.OverridesOtherKeys | src/core/config_manager.py:182-196 | a key no mapping names keeps its value |
| ConfigManager.MaxDailyTradesOverride | src/core/config_manager.py:175-196 | a MAX_DAILY_TRADES environment integer becomes risk_management.max_daily_trades |
| ConfigManager.OverrideUnset | src/core/config_manager.py:183-184 | a mapping whose variable is unset changes nothing |
| ConfigManager.OverrideWrites | src/core/config_manager.py:195-196 | a set, parseable variable writes its parsed value at its key, replacing only that entry |
| ConfigManager.UnsetOverrides | src/core/config_manager.py:182-184 | with none of the variables set the configuration is unchanged |
| ConfigManager.MissingSections | src/core/config_manager.py:130-134 | each reported section is required and missing, one error at most per required section |
| ConfigManager.NoMissingSections | src/core/config_manager.py:131-140 | no section is reported missing exactly when all three required sections exist |
| ConfigManager.ValidateAccepts | src/core/config_manager.py:126-169 | a configuration is accepted exactly when the three sections exist, the risk section is a dictionary whose stop minimum compares below its maximum (numerically for two numbers, lexicographically for two strings, defaults 0 and 100), R/R and confidence (defaults 0 and 0.65) are numbers, R/R is positive and confidence is in (0, 1] |
| ConfigManager.StrLessTotal | src/core/config_manager.py:146 | the string order used for two string stop limits is a strict total order |
| ConfigManager.StringStopLimits | src/core/config_manager.py:146-149 | string stop limits 15 and 50 are accepted, while 9 and 10 are rejected as inverted because they compare as text |
| ConfigManager.OverridesBypassValidation | src/core/config_manager.py:92-95 | validation runs before the overrides, so a configuration it accepts can carry CONFIDENCE_THRESHOLD=1.5 afterwards, a value it would reject |
| ConfigManager.IntField | src/core/config_manager.py:208-225 | an integer setting is read exactly when it is absent or a whole number (int, bool or integral float), and then has that value |
| ConfigManager.RealField | src/core/config_manager.py:207-225 | a real setting is read exactly when it is absent or numeric, and a present one has its numeric value |
| ConfigManager.TypedTrading | src/core/config_manager.py:201-213 | the typed trading settings are built exactly when the trading section is absent, or a dictionary whose six fields each hold a number (a whole one for the bar age); each field is then the number given or its default (5, 1000 bars, 3, 0.65, 1, 2) |
| ConfigManager.TypedRisk | src/core/config_manager.py:201-227 | the typed risk settings are built exactly when the risk section is absent, or a dictionary whose ten fields each hold a number (a whole one for the integer fields); each field is then the number given or its default (15, 35, 50, 5, 5, 100, 3, 10, 5, 15) |
| ConfigManager.FloatPositionSize | src/core/config_manager.py:212 | a position size written as the float 2.0 gives the default trading settings with position size 2 |
| ConfigManager.TypedDefaults | src/core/config_manager.py:201-228 | a missing section yields the default typed settings, and a present key overrides only its own field: a risk section holding only stop_loss_min n gives the default risk with that minimum, and a trading section holding only the default confidence gives the default trading settings |
| ConfigManager.GetFilePath | src/core/config_manager.py:261-267 | a path is returned exactly when the file_paths section has a non-empty string under the key |
| ConfigManager.ConfigStore.constructor | src/core/config_manager.py:85-90 | the store holds the loaded settings with no validation errors |
| ConfigManager.ConfigStore.Get | src/core/config_manager.py:245-259 | the value is the dotted lookup of the key with the default |
| ConfigManager.ConfigStore.ValidateConfigs | src/core/config_manager.py:126-169 | the loop over the required sections collects the missing ones; the outcome is the validation of the settings, whose acceptance condition ValidateAccepts states, and its errors are kept, none when accepted |
| ConfigManager.ConfigStore.ApplyEnvironmentOverrides | src/core/config_manager.py:171-199 | the loop leaves the settings equal to the overrides applied in the mapping order, whose effects OverridesFrame, OverridesOtherKeys and OverrideWrites state: only the named keys of existing sections change, each to its parsed value |
| EnhancedAiAgent.FirstMax | src/enhanced_ai_agent.py:396-397 | the chosen direction has the most votes, and ties go to the earlier of long, short, no-trade |
| EnhancedAiAgent.Tally | src/enhanced_ai_agent.py:377-393 | the three perspectives cast exactly three votes; the tally fails exactly when the trend direction is unhashable; all three vote long, or all short, exactly when trend, zone and risk all agree on it |
| EnhancedAiAgent.ConsensusSpec | src/enhanced_ai_agent.py:395-424 | the consensus is long or short exactly with a unanimous vote, entered at the price with no dissent, and no-trade otherwise; stop and target are 0; agreement is the winning share, at least a third, and confidence is 0.8 of it |
| EnhancedAiAgent.EnhancedTradingAgent.constructor | src/enhanced_ai_agent.py:46-52 | a new agent has no signals, wins, losses or recent results |
| EnhancedAiAgent.EnhancedTradingAgent.RecordOutcome | src/enhanced_ai_agent.py:437-447 | one more signal, a win on WIN and a loss on anything else, and the result is pushed onto the five-result window |
| EnhancedAiAgent.PushBounded | src/enhanced_ai_agent.py:445-447 | pushing keeps the window's last up-to-five results ending in the new one |
| EnhancedAiAgent.PushBoundedKeepsLastFive | src/enhanced_ai_agent.py:445-447 | pushing onto the last five equals the last five of the extended history |
| EnhancedAiAgent.WindowOfHistory | src/enhanced_ai_agent.py:437-447 | after any sequence of outcomes the window is the last five results |
| HealthMonitor.FileStatus | src/health_monitor.py:101-153 | a file is healthy exactly when it exists, is fresh enough and is readable; degraded exactly when it is stale; unhealthy when missing or fresh but unreadable; unknown when the check itself fails |
| HealthMonitor.MaxAge | src/health_monitor.py:249 | the historical file may be an hour old, every other file a minute |
| HealthMonitor.IssueCount | src/health_monitor.py:202-208 | counts how many of CPU, memory and disk exceed 90%: none exactly when all are at most 90%, three exactly when all exceed it |
| HealthMonitor.ResourceStatus | src/health_monitor.py:187-241 | unknown exactly when usage cannot be read; otherwise healthy with no issue, degraded with one and unhealthy with two or more |
| HealthMonitor.ApiStatus | src/health_monitor.py:155-185 | healthy exactly when the API answers within 5 seconds, degraded when it answers slower, unhealthy when it does not answer |
| HealthMonitor.BuildChecks | src/health_monitor.py:243-253 | one round produces the signals, historical and live-feed file checks with their age limits and the resource check, under distinct names |
| HealthMonitor.WorstIsMaximum | src/health_monitor.py:294-308 | the worst status is at least as severe as every check's and is the status of one of them |
| HealthMonitor.OverallIsWorst | src/health_monitor.py:294-308 | the overall status is the worst status of any check, unknown with none |
| HealthMonitor.Lookup | src/health_monitor.py:270 | finds the stored status under a name exactly when a stored check has that name |
| HealthMonitor.AlertsMembership | src/health_monitor.py:263-272 | an alert is raised exactly when one of the checks raises it |
| HealthMonitor.UnhealthyAlertsSpec | src/health_monitor.py:265-267 | an unhealthy alert is raised for a name exactly when its check is unhealthy |
| HealthMonitor.DegradedAlertsSpec | src/health_monitor.py:268-272 | a degraded alert is raised for a name exactly when its check is degraded and the stored status under that name is degraded too |
| HealthMonitor.DegradedAlertsImmediately | src/health_monitor.py:255-259 | as written, the round stores its checks before alerting, so every degraded check alerts in its first round |
| HealthMonitor.FirstStaleFileAlerts | src/health_monitor.py:255-272 | a first round where only the signals file is stale (120 s old, limit 60) alerts as written, and does not alert when compared with the previous round |
| HealthMonitor.Monitor.constructor | src/health_monitor.py:71 | a new monitor has no stored checks |
| HealthMonitor.Monitor.CheckAlerts | src/health_monitor.py:263-272 | returns the alerts for the checks against the stored checks |
| HealthMonitor.Monitor.RunAllChecksAsWritten | src/health_monitor.py:243-261 | runs the round, stores it, then alerts against what was just stored |
| HealthMonitor.Monitor.RunAllChecks | src/health_monitor.py:243-261 | runs the round, alerts against the previous round's checks, then stores the new ones |
| HealthMonitor.DegradedAlertsOnSecondRound | src/health_monitor.py:268-272 | with the corrected order a check degraded in two consecutive rounds alerts on the second and not on the first |
| LevelDetector.RoundHalfEvenNearest | src/level_detector.py:37 | rounding gives an integer within a half of x, no farther than any other integer, the even one on a tie and the unique one otherwise |
| LevelDetector.RoundToLevelNearest | src/level_detector.py:26-37 | the rounded level is a multiple of the interval, no farther from the price than any other multiple, within half an interval, and an even multiple on a tie |
| LevelDetector.NearestLevelsSpec | src/level_detector.py:39-73 | the level above is the least multiple strictly above the price and the level below the greatest strictly below; both distances are positive; on-level means within one point of the nearest level, which is the rounded level |
| LevelDetector.LevelsAroundSpec | src/level_detector.py:53-64 | around a level within half an interval of the price, the levels above and below bracket the price strictly, one interval apart, or two when the price sits exactly on the level |
| LevelDetector.CandidatesShape | src/level_detector.py:87-98 | the candidates are multiples of the interval within count intervals of the rounded level; there are 2*count of them, one fewer when the rounded level is below the price |
| LevelDetector.AboveLevelsShape | src/level_detector.py:91-93 | the upward candidates are at or above the price, count of them, minus the rounded level itself when it is below the price |
| LevelDetector.BelowLevelsShape | src/level_detector.py:96-98 | the downward candidates are count levels below the rounded level, at or below the price |
| LevelDetector.NearbyLevelsSpec | src/level_detector.py:75-102 | the nearby levels are sorted by distance from the price and have the candidate count and bounds |
| LevelDetector.FindNearbyLevels | src/level_detector.py:75-102 | the loop builds the candidates and returns them, as a permutation, stably sorted by distance from the price |
| MarketAnalysisManager.EmptyAnalysis | src/market_analysis_manager.py:33-67 | a fresh analysis has both sides with no setup at age 0, both counters at 0, bar 0, neutral bias |
| MarketAnalysisManager.Updated | src/market_analysis_manager.py:126-161 | an update fails exactly when a side still live before is missing from the incoming analysis; otherwise each incoming side is kept, a side that was live has its age carried over plus one, the trade counter goes up by one, the update counter resets and the rest comes from the incoming analysis |
| MarketAnalysisManager.Marked | src/market_analysis_manager.py:163-178 | marking a trade fails exactly when the traded side has no assessment; otherwise the trade counter resets and the traded side becomes executed at age 0, leaving the other side alone |
| MarketAnalysisManager.MarkThenUpdate | src/market_analysis_manager.py:138-178 | after a long is marked executed, the next update takes the incoming long side as is and the trade counter is 1 |
| MarketAnalysisManager.AgeCountsUpdates | src/market_analysis_manager.py:136-154 | a setup that stays live through two updates is two bars older |
| MarketAnalysisManager.MarketAnalysisManager.constructor | src/market_analysis_manager.py:18-87 | starts from the loaded analysis, or from the empty one when nothing could be loaded |
| MarketAnalysisManager.MarketAnalysisManager.UpdateAnalysis | src/market_analysis_manager.py:126-161 | a failing update changes nothing and reports failure; otherwise the analysis becomes the update, stamped now, and the result is whether saving succeeded |
| MarketAnalysisManager.MarketAnalysisManager.SaveAnalysis | src/market_analysis_manager.py:89-115 | saving stamps the time and reports the save's outcome |
| MarketAnalysisManager.MarketAnalysisManager.MarkTradeExecuted | src/market_analysis_manager.py:163-181 | the call raises exactly when marking fails, after resetting the trade counter; otherwise the analysis becomes the marked one, stamped now |
| MemoryManager.RecentMatchesIsFilterOfReverse | src/memory_manager.py:126-147 | walking the history from newest to oldest keeps exactly the matching trades of the reversed history, in that order |
| MemoryManager.QueryResultSpec | src/memory_manager.py:113-151 | a query returns the newest matching trades, at most Bound(limit) of them, which is one for a limit below 1; all matches when fewer exist; every result matches the filters and comes from the history |
| MemoryManager.FourWayCount | src/memory_manager.py:181-195 | wins, losses, breakevens and trades with any other result partition the trades |
| MemoryManager.StatsCounts | src/memory_manager.py:163-207 | no trades give all-zero statistics; the total is the trade count, the three counted results plus the others make it up, and the total P&L is the sum |
| MemoryManager.StatsRatios | src/memory_manager.py:196-207 | the win rate is wins over decided trades, 0 with none decided; the average P&L and R/R are the sums over the trade count |
| MemoryManager.WinRateBounded | src/memory_manager.py:203 | the win rate lies between 0 and 1 |
| MemoryManager.GetTrade | src/memory_manager.py:98-111 | finds the first trade with the id, or none exactly when no trade has it |
| MemoryManager.RecentWindow | src/memory_manager.py:225 | the recent window is the last fifty trades, or all of them when fewer |
| MemoryManager.MemoryManager.constructor | src/memory_manager.py:19-36 | the journal starts from the loaded history |
| MemoryManager.MemoryManager.StoreTrade | src/memory_manager.py:78-96 | the trade is appended with its own id, or the timestamp when it has none, and that id is returned |
| MemoryManager.MemoryManager.QueryTrades | src/memory_manager.py:113-151 | the newest-first loop with its early stop returns the query result |
| MemoryManager.MemoryManager.GetMemoryContext | src/memory_manager.py:209-236 | the context holds the statistics of the last 20 FVG-only trades, the last 20 level-only trades and the last 50 trades, and the history's size |
| MemoryManager.CalculateStats | src/memory_manager.py:153-207 | the loop computes the journal statistics |
| PerformanceAnalytics.MakeTradeSpec | src/performance_analytics.py:150-169 | a long's points are exit minus entry and anything else's entry minus exit; P&L is points times quantity; win above 0.5 points, loss below -0.5, breakeven between; the planned and achieved R/R are the target and realised distances over the stop distance, 0 without risk |
| PerformanceAnalytics.OppositeSideMirrors | src/performance_analytics.py:150-163 | the same prices taken short instead of long negate the points and P&L, swap win and loss, and keep the achieved R/R |
| PerformanceAnalytics.ExitAtTargetRealisesPlan | src/performance_analytics.py:165-169 | a trade that exits exactly at its target achieves its planned R/R |
| PerformanceAnalytics.PerformanceAnalytics.constructor | src/performance_analytics.py:87-96 | the analytics start from the loaded trades |
| PerformanceAnalytics.PerformanceAnalytics.RecordTrade | src/performance_analytics.py:131-196 | the trade built from the fill is appended |
| PerformanceAnalytics.PerformanceAnalytics.GetEquityCurve | src/performance_analytics.py:376-390 | one point per trade in exit-time order, each carrying the running P&L; the timestamps never decrease and the last point's equity is the total P&L |
| PerformanceAnalytics.CurveOrderAndTotal | src/performance_analytics.py:376-390 | a curve built from the sorted trades is in time order and ends at the total P&L |
| PerformanceAnalytics.StreakSpec | src/performance_analytics.py:288-300 | the longest streak of a result is attained by some run and no run of that result is longer; the current streak is the trailing run |
| PerformanceAnalytics.StreakAtMostCount | src/performance_analytics.py:288-300 | a streak is never longer than the number of trades with that result |
| PerformanceAnalytics.MaxConsecutiveLoop | src/performance_analytics.py:288-300 | the loop returns the longest run of the result, attained and never exceeded |
| PerformanceAnalytics.DrawdownSpec | src/performance_analytics.py:302-317 | the peak is the highest running equity and is attained; the maximum drawdown is the largest fall from an earlier equity to a later one and is attained |
| PerformanceAnalytics.DrawdownFromZero | src/performance_analytics.py:305-317 | the drawdown is never negative and, as the peak starts at 0, covers any fall below zero equity |
| PerformanceAnalytics.MaxDrawdownLoop | src/performance_analytics.py:302-317 | the loop returns the maximum drawdown, non-negative and at least every fall |
| PerformanceAnalytics.Largest | src/performance_analytics.py:234 | the largest win is the greatest P&L of the trades and is one of them |
| PerformanceAnalytics.Smallest | src/performance_analytics.py:235 | the largest loss is the least P&L of the trades and is one of them |
| PerformanceAnalytics.WinRate | src/performance_analytics.py:225-226 | the win rate lies in [0, 1] and is 0 with no decided trades |
| PerformanceAnalytics.WinRateSpec | src/performance_analytics.py:225-226 | with decided trades the win rate times their number is the wins |
| PerformanceAnalytics.ThreeWayCount | src/performance_analytics.py:210-217 | wins, losses and breakevens partition the trades |
| PerformanceAnalytics.ThreeWaySum | src/performance_analytics.py:219-222 | the P&L of wins, losses and breakevens adds up to the total P&L |
| PerformanceAnalytics.StatsCounts | src/performance_analytics.py:210-217 | the period totals count every trade once as a win, loss or breakeven |
| PerformanceAnalytics.StatsPnl | src/performance_analytics.py:220-222 | the period's total P&L is the sum over all trades and over its three result groups |
| PerformanceAnalytics.StatsStreaksAndDrawdown | src/performance_analytics.py:244-257 | the longest winning and losing streaks do not exceed the win and loss counts, and the drawdown is non-negative |
| PerformanceAnalytics.StatsStart | src/performance_analytics.py:207-264 | the period starts at the earliest entry time |
| PerformanceAnalytics.StatsAverages | src/performance_analytics.py:224-233 | for a non-empty period the average win times the win count is the gross profit, the average loss times the loss count is the total absolute loss, the win rate times the decided trades is the win count, and an empty group averages zero |
| PerformanceAnalytics.ExpectancySpec | src/performance_analytics.py:363-374 | expectancy equals total winning P&L minus total losing size, over the decided trades, and 0 with none |
| Retry.CalculateDelay | src/core/retry.py:36-61 | the delay is never negative |
| Retry.DelaySpec | src/core/retry.py:50-61 | without jitter the delay is base times the exponential base to the attempt, capped at the maximum and floored at 0; with jitter it stays within the jitter fraction of that |
| Retry.DelayNonDecreasing | src/core/retry.py:50-54 | without jitter, for a base of at least 1, the delay never shrinks from one attempt to the next |
| Retry.RetryWithBackoff | src/core/retry.py:83-120 | no call at all when max_attempts is not positive; otherwise at most max_attempts calls, every call but the last failed with a retryable exception, the last call's outcome is returned, and the sleeps between calls are the computed delays |
| Retry.RetryContext.constructor | src/core/retry.py:132-136 | a new context has made no attempt, holds no exception and has waited nothing |
| Retry.WaitDelay | src/core/retry.py:148-150 | the wait after k counted failures is the delay of attempt k-1; with none counted it is the delay for exponent -1, which fails exactly when the exponential base is 0 |
| Retry.WaitMatchesBackoff | src/core/retry.py:148-150 | after k counted failures the manual context waits what the decorator sleeps after its k-th call |
| Retry.RetryContext.Wait | src/core/retry.py:148-153 | returns the wait delay and adds it to the total delay, which never decreases; a failing delay adds nothing |
| Retry.RetryContext.ShouldRetry | src/core/retry.py:138-146 | a non-retryable exception is refused without counting; a retryable one counts an attempt, is remembered, and is retried exactly while attempts stay below the maximum |
| Retry.Observe | src/core/retry.py:197-205 | reading the state moves an open breaker to half-open exactly when the timeout has passed since a recorded failure, and changes nothing else |
| Retry.AfterSuccess | src/core/retry.py:218-225 | in half-open, a success closes the breaker, clearing the counts, exactly when it reaches the success threshold, and otherwise only counts; in any other state it clears the failure count |
| Retry.AfterFailure | src/core/retry.py:227-236 | a failure counts, clears successes and stamps the time; a closed breaker opens exactly at the failure threshold, a half-open one reopens at once, an open one stays open |
| Retry.BreakerInvPreserved | src/core/retry.py:187-253 | the breaker's invariant holds initially and is kept by observing, successes and failures |
| Retry.ConsecutiveFailuresOpen | src/core/retry.py:227-236 | n failures from fresh leave n counted and open the breaker exactly when n reaches a positive threshold |
| Retry.CircuitBreaker.constructor | src/core/retry.py:171-195 | a new breaker is closed with no counts and no failure time |
| Retry.CircuitBreaker.State | src/core/retry.py:197-205 | the breaker observes the clock and returns its phase |
| Retry.CircuitBreaker.CanExecute | src/core/retry.py:207-216 | the breaker observes the clock and allows a call exactly when it is not open |
| Retry.CircuitBreaker.RecordSuccess | src/core/retry.py:218-225 | the breaker takes the success step |
| Retry.CircuitBreaker.RecordFailure | src/core/retry.py:227-236 | the breaker takes the failure step |
| SignalGenerator.FirstBadField | src/signal_generator.py:73-79 | no field is rejected exactly when every required field is present and numeric |
| SignalGenerator.SideRejection | src/signal_generator.py:86-96 | a long passes exactly when stop < entry < target, a short exactly when target < entry < stop |
| SignalGenerator.AcceptedIff | src/signal_generator.py:59-131 | a decision is accepted exactly when it is LONG or SHORT, its three prices are numbers on the correct sides, a given raw target is numeric and within 0.1 of the target minus (long) or plus (short) the 5-point buffer, and the reward is at least the minimum R/R times the risk |
| SignalGenerator.ZeroRiskUnreachable | src/signal_generator.py:86-119 | the zero-risk rejection can never be returned, as the side checks already exclude a stop on the entry |
| SignalGenerator.FieldsCheckedFirst | src/signal_generator.py:73-79 | a LONG or SHORT decision with a missing or non-numeric price is rejected for the first such field, missing or invalid as the case is |
| SignalGenerator.AcceptedLongBuffer | src/signal_generator.py:99-106 | an accepted long with a raw target has its target within 4.9-5.1 points below the raw target and above the entry |
| Common.TrimLeft | src/trading_agent.py:308 | drops exactly the leading whitespace, whitespace being Python's set, Unicode spaces included |
| Common.TrimRight | src/trading_agent.py:308 | drops exactly the trailing whitespace, whitespace being Python's set, Unicode spaces included |
| Common.Strip | src/trading_agent.py:308 | the stripped text neither starts nor ends with whitespace, whitespace being Python's set, Unicode spaces included |
| Common.StripIdempotent | src/trading_agent.py:308 | stripping twice equals stripping once |
| Common.StripPadding | src/trading_agent.py:308 | stripping whitespace-padded text without whitespace at its ends gives back that text |
| TradingAgent.ExtractJsonFenced | src/trading_agent.py:308-310 | a response with a json fence yields the stripped text between the fence and the next closing fence |
| TradingAgent.ExtractPlainFenced | src/trading_agent.py:311-312 | a response with only plain fences yields the stripped text between the first fence and the next |
| TradingAgent.ExtractUnfenced | src/trading_agent.py:308-312 | a response without fences yields the stripped response |
| TradingAgent.FencedRoundTrip | src/trading_agent.py:308-312 | fencing a body without backticks as json and extracting gives back the stripped body |
| TradingAgent.NormalizeBias | src/trading_agent.py:339-341 | a missing overall_bias is filled from market_bias; otherwise the decision is unchanged |
| TradingAgent.ValidateDecision | src/trading_agent.py:324-395 | the decision returned is the bias-normalised input |
| TradingAgent.NoneValidOnShape | src/trading_agent.py:362-364 | a well-shaped NONE decision is valid without any price check |
| TradingAgent.TradeValidIff | src/trading_agent.py:366-395 | a trade decision is valid exactly when it is well shaped, its setup's numbers are numeric, the stop distance is within the limits, the stop is on the correct side, and R/R and confidence meet their minimums |
| TradingAgent.MissingBiasFirst | src/trading_agent.py:336-337 | a decision without any bias is rejected for that first, unchanged |
| TradingAgent.Trend | src/trading_agent.py:578-587 | strong up exactly when EMA21 > EMA75 > EMA150, strong down on the reverse order, weak up or down when only the fast pair is ordered, neutral when the fast pair is equal |
| TradingAgent.TrendMatchesRegime | src/trading_agent.py:151-160 | the agent's trend label agrees with the edge filter's regime: strong up exactly for an up-trend of either strength, strong down likewise, and the weak or neutral labels exactly for ranging |

## Left out

- Reading bars and prices from CSV files (`read_historical_data`, `read_current_price`, `check_historical_updated`, `load_historical_data`): bars are a `seq<Bar>` parameter.
- Persistence: risk state `_load_state` / `_save_state`, the trade journal and performance files, the market-analysis file, `export_results` and `export_to_csv`. Loaded data is a constructor parameter, and a save's success is a boolean parameter.
- Signal CSV output (`generate_signal`, `count_signals_today`, `get_recent_signals`, `clear_signals`): file I/O only; `validate_decision` is modelled.
- LLM calls and prompts (`build_prompt`, `analyze_setup`, `get_second_opinion`, `_get_system_prompt`, `_build_market_context`) and `json.loads`: the parsed answer is an input.
- The backtest's Claude-driven entry path: only the rule-based (non-Claude) entry is modelled.
- Threads, locks and logging (`start_monitoring`, `stop_monitoring`, the animation thread, `src/core/file_lock.py`, `src/core/logging_setup.py`): not sequential decision logic.
- psutil readings, file stat calls and the API test callback: their results (`FileProbe`, usage percentages, answer and response time) are inputs.
- Wall-clock time (`datetime.now()`, `time.time()`): the session time, cooldown clock, consistency-check clock and breaker clock are parameters. Cooldown times are whole seconds.
- `time.sleep` in `retry_with_backoff` and `RetryContext.wait`: `retry_with_backoff` returns its sleeps as a list of delays and `Wait` returns the one delay it would sleep.
- Retry jitter's `random.uniform`: a parameter `u` in [0, 1] picks the point in the jitter range.
- `CircuitBreaker.__call__` wrapper and `get_stats`; `RetryContext.get_stats`: bookkeeping around the modelled transitions.
- The Sharpe ratio (`statistics.stdev`) and the `float('inf')` profit and recovery factors in performance analytics: floating-point only.
- `get_daily_stats`, `get_stats_by_setup_type`, `get_stats_by_direction` and `get_report`: regroupings that call the modelled `calculate_stats`.
- UI and reporting: `display_status`, `run`, `clear_screen`, every `get_summary` / `get_*_summary` / `format_*` text builder, `get_calibration_report`, `get_health_report`, `get_validation_summary`.
- Health-check and alert message texts and the alert callbacks (`register_alert_callback`, `_send_alert`): checks and alerts are enum values. `update_heartbeat`, `record_signal`, `record_trade` and `get_uptime` are counters with no decision.
- `LevelDetector.analyze_level_context` and `get_level_summary`: reporting over the modelled level functions.
- `MemoryManager.log_session`, `update_summary`: journal file bookkeeping.
- `MarketAnalysisManager.get_previous_analysis` (a getter) and `format_previous_analysis_for_prompt` (prompt text).
- `ConfigManager` singleton (`__new__`, `reset`), `_load_configs`, `reload`, `to_dict`, `get_risk_rules`: object identity and file loading. The loaded settings are a constructor parameter.
- `src/core/exceptions.py` is not part of this model: plain data containers.
- `main.py` orchestration is not part of this model. It gates trades through validator, edge filter and `check_pre_trade`, and never calls `get_position_size`.
- Risk manager `_check_warning_thresholds` only logs. The WARNING state is never entered, though the pre-trade check accepts it. `get_metrics` is a getter.
- `_halt_trading`: modelled inside the pre-trade, exit and limit checks as setting HALTED with its reason. It has no contract of its own.
- The `timestamp` field of `analyze_market_context`: clock only.
- `FairValueGaps.FvgDisplay.ProcessHistoricalBars`: only the new-bar path is modelled. Re-reading the file and the display refresh are left out.
- `TradingAgent.ValidateDecision`: its own contract only fixes the returned dictionary. Validity is stated by `NoneValidOnShape`, `TradeValidIff` and `MissingBiasFirst`, each of which covers inputs that carry a bias.
- `AiValidator.DistanceErrors`: the entry-distance error is stated one way (reported when too far). The count clause rules out any other addition.
- `BacktestEngine.SimpleEntryTargetSide`: states the source's rule-based entry as written, with a long target below the entry, so such trades can only close at the stop or a target the price has already passed.
- `MemoryManager.QueryResultSpec`: a limit of 0 or less still returns one match, as the source's `len(results) >= limit` test only runs after an append.
- `ConfigManager.ParseEnvValue`: digits are the ASCII ones. Python's `int()` and `float()` also accept other Unicode decimal digits, which the model reads as a string or a rejected float.
- `ConfigManager.ValidateAccepts`: two list-valued stop limits are a type error in the model. Python would compare them element by element.
- `ConfigManager.TypedTrading`: the source always builds the typed record, storing whatever value the file holds. The model builds none when a field holds a non-number or a fractional number in an integer field, because its integer fields cannot hold a fraction. A fractional limit such as `max_daily_trades: 5.5` compares normally in the source, and only a non-number in a field the risk checks compare fails there. `ConfigManager.TypedRisk` is the same.
- `TradingAgent.ExtractJsonFenced`: responses containing four backticks in a row are not covered. There a fence overlapping the next "```json" is not seen the way `str.split` sees it.
- `LevelDetector.RoundToLevel`: every level function requires a positive interval. An interval of 0 raises ZeroDivisionError in the source and is not modelled.
- `ConfigManager.OverridesBypassValidation`: environment overrides are applied after validation, so they are never validated. This is modelled as written.
- `SignalGenerator.ZeroRiskUnreachable`: the zero-risk rejection is dead code in the source. The model keeps the check and proves it unreachable.

## Findings

| source | as written | input that shows it | evidently intended | confidence | as-written member | corrected member |
|---|---|---|---|---|---|---|
| src/health_monitor.py:255-259 | `run_all_checks` stores the new round into `_health_checks` before `_check_alerts` compares against it, so every DEGRADED check finds itself stored and alerts in its very first round | a first round in which only the signals file is stale (120 s old, limit 60 s): as written it raises a DEGRADED alert for `file_signals`, while comparing with the previous (empty) round raises none | alert on DEGRADED only when the previous round was also DEGRADED, i.e. compare before storing | not executed | HealthMonitor.Monitor.RunAllChecksAsWritten, HealthMonitor.DegradedAlertsImmediately, HealthMonitor.FirstStaleFileAlerts | HealthMonitor.Monitor.RunAllChecks, HealthMonitor.DegradedAlertsOnSecondRound |
