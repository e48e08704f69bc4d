/**
 * The risk gate (src/risk_manager.py): a NORMAL / COOLDOWN / HALTED state
 * machine over daily counters, consecutive losses, equity, peak and
 * drawdown. `check_pre_trade` runs its checks in a fixed order and answers
 * the first failure; entry and exit recording update the counters, a loss
 * starts a cooldown, and a breached limit halts trading until a manual
 * resume or the next trading day.
 *
 * The wall clock is the `now` parameter (seconds); persistence of the state
 * file and logging are not modelled.
 */
module RiskManager {
  import opened Common
  import ConfigManager

  datatype RiskState = Normal | Warning | Halted | Cooldown

  /** Why the manager is in its current state. */
  datatype StateReason =
    | NoReason
    | DailyLossHalt
    | ConsecutiveLossHalt
    | DrawdownHalt
    | CooldownAfterLoss(minutes: int)

  datatype RiskMetrics = RiskMetrics(
    dailyTrades: int, dailyPnl: real, dailyWins: int, dailyLosses: int,
    consecutiveLosses: int, currentDrawdown: real, peakEquity: real,
    currentEquity: real, openPositions: int, dailyVolume: int,
    lastTradeTime: Option<int>, lastLossTime: Option<int>,
    state: RiskState, stateReason: StateReason)

  const InitialMetrics: RiskMetrics :=
    RiskMetrics(0, 0.0, 0, 0, 0, 0.0, 0.0, 0.0, 0, 0, None, None, Normal, NoReason)

  /** Contracts per day, across all trades. */
  const MaxDailyVolume: int := 50

  /** A closed trade as kept in the day's list. */
  datatype ClosedTrade = ClosedTrade(tradeId: string, direction: string, entryPrice: real,
                                     exitPrice: real, quantity: int, pnl: real, result: string,
                                     timestamp: int)

  /** A proposed trade as handed to the pre-trade check. */
  datatype TradeRequest = TradeRequest(direction: string, entry: real, stop: real, target: real,
                                       quantity: int, confidence: real)

  /** The reasons `check_pre_trade` can refuse, in the order it checks them. */
  datatype Refusal =
    | HaltedTrading(reason: StateReason)
    | CooldownActive(remaining: int)
    | DailyTradeLimit
    | DailyLossLimit
    | ConsecutiveLossLimit
    | PositionTooLarge
    | StopTooTight
    | StopTooWide
    | RiskRewardTooLow
    | ConfidenceTooLow
    | LongStopNotBelow
    | ShortStopNotAbove
    | LongTargetNotAbove
    | ShortTargetNotBelow
    | DailyVolumeExceeded

  datatype Verdict = Allowed | Refused(why: Refusal)

  /** Seconds left of the cooldown that started at the last loss, never negative. */
  function CooldownRemaining(m: RiskMetrics, risk: ConfigManager.RiskConfig, now: int): (r: int)
    ensures r >= 0
    ensures m.lastLossTime.None? ==> r == 0
    ensures m.lastLossTime.Some? ==> r >= m.lastLossTime.value + risk.coolDownAfterLossMinutes * 60 - now
    ensures r > 0 ==> r == m.lastLossTime.value + risk.coolDownAfterLossMinutes * 60 - now
  {
    if m.lastLossTime.None? then 0
    else
      var remaining := m.lastLossTime.value + risk.coolDownAfterLossMinutes * 60 - now;
      if remaining > 0 then remaining else 0
  }

  function StopDistance(req: TradeRequest): real { Abs(req.entry - req.stop) }

  /** Reward over risk, 0 when the stop sits on the entry. */
  function RiskReward(req: TradeRequest): (rr: real)
    ensures rr >= 0.0
    ensures StopDistance(req) > 0.0 ==> rr * StopDistance(req) == Abs(req.target - req.entry)
  {
    var sd := StopDistance(req);
    if sd > 0.0 then Abs(req.target - req.entry) / sd else 0.0
  }

  /** Position of each refusal in the check order. */
  function Rank(w: Refusal): nat
  {
    match w
    case HaltedTrading(_) => 0
    case CooldownActive(_) => 1
    case DailyTradeLimit => 2
    case DailyLossLimit => 3
    case ConsecutiveLossLimit => 4
    case PositionTooLarge => 5
    case StopTooTight => 6
    case StopTooWide => 7
    case RiskRewardTooLow => 8
    case ConfidenceTooLow => 9
    case LongStopNotBelow => 10
    case ShortStopNotAbove => 11
    case LongTargetNotAbove => 12
    case ShortTargetNotBelow => 13
    case DailyVolumeExceeded => 14
  }

  const NumChecks: nat := 15

  /** Check number `k` fails for state `m` and request `req` (a reference list, independent of the if-chain). */
  predicate Fails(k: nat, m: RiskMetrics, risk: ConfigManager.RiskConfig, trading: ConfigManager.TradingConfig,
                  req: TradeRequest, now: int)
  {
    if k == 0 then m.state == Halted
    else if k == 1 then m.state == Cooldown && CooldownRemaining(m, risk, now) > 0
    else if k == 2 then m.dailyTrades >= risk.maxDailyTrades
    else if k == 3 then m.dailyPnl <= -risk.maxDailyLoss
    else if k == 4 then m.consecutiveLosses >= risk.maxConsecutiveLosses
    else if k == 5 then req.quantity > risk.maxPositionSize
    else if k == 6 then StopDistance(req) < risk.stopLossMin as real
    else if k == 7 then StopDistance(req) > risk.stopLossMax as real
    else if k == 8 then RiskReward(req) < trading.minRiskReward
    else if k == 9 then req.confidence < trading.confidenceThreshold
    else if k == 10 then req.direction == "LONG" && req.stop >= req.entry
    else if k == 11 then req.direction == "SHORT" && req.stop <= req.entry
    else if k == 12 then req.direction == "LONG" && req.target <= req.entry
    else if k == 13 then req.direction == "SHORT" && req.target >= req.entry
    else if k == 14 then m.dailyVolume + req.quantity > MaxDailyVolume
    else false
  }

  datatype PreTradeOutcome = PreTradeOutcome(verdict: Verdict, metrics: RiskMetrics)

  function Halt(m: RiskMetrics, reason: StateReason): RiskMetrics
  {
    m.(state := Halted, stateReason := reason)
  }

  /** The checks after the state gate, on the (possibly resumed) state `m`. */
  function LimitChecks(m: RiskMetrics, risk: ConfigManager.RiskConfig, trading: ConfigManager.TradingConfig,
                       req: TradeRequest): Verdict
  {
    if m.dailyTrades >= risk.maxDailyTrades then Refused(DailyTradeLimit)
    else if m.dailyPnl <= -risk.maxDailyLoss then Refused(DailyLossLimit)
    else if m.consecutiveLosses >= risk.maxConsecutiveLosses then Refused(ConsecutiveLossLimit)
    else if req.quantity > risk.maxPositionSize then Refused(PositionTooLarge)
    else if StopDistance(req) < risk.stopLossMin as real then Refused(StopTooTight)
    else if StopDistance(req) > risk.stopLossMax as real then Refused(StopTooWide)
    else if RiskReward(req) < trading.minRiskReward then Refused(RiskRewardTooLow)
    else if req.confidence < trading.confidenceThreshold then Refused(ConfidenceTooLow)
    else if req.direction == "LONG" && req.stop >= req.entry then Refused(LongStopNotBelow)
    else if req.direction == "SHORT" && req.stop <= req.entry then Refused(ShortStopNotAbove)
    else if req.direction == "LONG" && req.target <= req.entry then Refused(LongTargetNotAbove)
    else if req.direction == "SHORT" && req.target >= req.entry then Refused(ShortTargetNotBelow)
    else if m.dailyVolume + req.quantity > MaxDailyVolume then Refused(DailyVolumeExceeded)
    else Allowed
  }

  /** `check_pre_trade`: the verdict and the state it leaves behind. */
  function PreTrade(m: RiskMetrics, risk: ConfigManager.RiskConfig, trading: ConfigManager.TradingConfig,
                    req: TradeRequest, now: int): PreTradeOutcome
  {
    if m.state == Halted then PreTradeOutcome(Refused(HaltedTrading(m.stateReason)), m)
    else if m.state == Cooldown && CooldownRemaining(m, risk, now) > 0
    then PreTradeOutcome(Refused(CooldownActive(CooldownRemaining(m, risk, now))), m)
    else
      var m1 := if m.state == Cooldown then m.(state := Normal, stateReason := NoReason) else m;
      var v := LimitChecks(m1, risk, trading, req);
      var m2 := if v == Refused(DailyLossLimit) then Halt(m1, DailyLossHalt)
                else if v == Refused(ConsecutiveLossLimit) then Halt(m1, ConsecutiveLossHalt)
                else m1;
      PreTradeOutcome(v, m2)
  }

  /**
   * The verdict is the first failing check in the documented order, and the
   * trade is allowed exactly when no check fails.
   */
  lemma PreTradeFirstFailure(m: RiskMetrics, risk: ConfigManager.RiskConfig, trading: ConfigManager.TradingConfig,
                             req: TradeRequest, now: int)
    ensures var v := PreTrade(m, risk, trading, req, now).verdict;
            (v == Allowed <==> forall k :: 0 <= k < NumChecks ==> !Fails(k, m, risk, trading, req, now)) &&
            (v.Refused? ==> Rank(v.why) < NumChecks && Fails(Rank(v.why), m, risk, trading, req, now) &&
                            forall j :: 0 <= j < Rank(v.why) ==> !Fails(j, m, risk, trading, req, now))
  {
    var v := PreTrade(m, risk, trading, req, now).verdict;
    if v.Refused? {
      assert Fails(Rank(v.why), m, risk, trading, req, now);
      forall j | 0 <= j < Rank(v.why) ensures !Fails(j, m, risk, trading, req, now) {
        PassedBefore(m, risk, trading, req, now, j);
      }
    } else {
      forall k | 0 <= k < NumChecks ensures !Fails(k, m, risk, trading, req, now) {
        PassedBefore(m, risk, trading, req, now, k);
      }
    }
  }

  /** A check earlier than the answered one passed. */
  lemma PassedBefore(m: RiskMetrics, risk: ConfigManager.RiskConfig, trading: ConfigManager.TradingConfig,
                     req: TradeRequest, now: int, j: nat)
    requires var v := PreTrade(m, risk, trading, req, now).verdict;
             (v.Refused? && j < Rank(v.why)) || (v == Allowed && j < NumChecks)
    ensures !Fails(j, m, risk, trading, req, now)
  {
  }

  /**
   * The only effects of the pre-trade check are that an expired cooldown
   * becomes NORMAL and that a daily-loss or consecutive-loss breach halts;
   * the counters never change, and the drawdown is not consulted.
   */
  lemma PreTradeEffects(m: RiskMetrics, risk: ConfigManager.RiskConfig, trading: ConfigManager.TradingConfig,
                        req: TradeRequest, now: int, drawdown: real)
    ensures var o := PreTrade(m, risk, trading, req, now);
            o.metrics.(state := m.state, stateReason := m.stateReason) == m &&
            (o.metrics.state == Halted <==>
               m.state == Halted || o.verdict in {Refused(DailyLossLimit), Refused(ConsecutiveLossLimit)}) &&
            (o.metrics.state != Halted && o.metrics.state != m.state ==>
               m.state == Cooldown && CooldownRemaining(m, risk, now) == 0 && o.metrics.state == Normal) &&
            (o.verdict == Allowed ==> o.metrics.state in {Normal, Warning})
    ensures PreTrade(m.(currentDrawdown := drawdown), risk, trading, req, now).verdict ==
            PreTrade(m, risk, trading, req, now).verdict
  {
  }

  lemma PreTradeAllowedBounds(m: RiskMetrics, risk: ConfigManager.RiskConfig, trading: ConfigManager.TradingConfig,
                              req: TradeRequest, now: int)
    requires PreTrade(m, risk, trading, req, now).verdict == Allowed
    ensures risk.stopLossMin as real <= StopDistance(req) <= risk.stopLossMax as real
    ensures req.quantity <= risk.maxPositionSize && m.dailyVolume + req.quantity <= MaxDailyVolume
    ensures req.direction == "LONG" ==> req.stop < req.entry < req.target
    ensures req.direction == "SHORT" ==> req.target < req.entry < req.stop
    ensures RiskReward(req) >= trading.minRiskReward && req.confidence >= trading.confidenceThreshold
  {
    PreTradeFirstFailure(m, risk, trading, req, now);
    assert !Fails(5, m, risk, trading, req, now) && !Fails(6, m, risk, trading, req, now);
    assert !Fails(7, m, risk, trading, req, now) && !Fails(8, m, risk, trading, req, now);
    assert !Fails(9, m, risk, trading, req, now) && !Fails(10, m, risk, trading, req, now);
    assert !Fails(11, m, risk, trading, req, now) && !Fails(12, m, risk, trading, req, now);
    assert !Fails(13, m, risk, trading, req, now) && !Fails(14, m, risk, trading, req, now);
  }

  /** `record_trade_entry`. */
  function EntryMetrics(m: RiskMetrics, quantity: int, now: int): (r: RiskMetrics)
    ensures r.dailyTrades == m.dailyTrades + 1 && r.openPositions == m.openPositions + 1
    ensures r.dailyVolume == m.dailyVolume + quantity && r.lastTradeTime == Some(now)
    ensures r.(dailyTrades := m.dailyTrades, openPositions := m.openPositions,
               dailyVolume := m.dailyVolume, lastTradeTime := m.lastTradeTime) == m
  {
    m.(dailyTrades := m.dailyTrades + 1, dailyVolume := m.dailyVolume + quantity,
       openPositions := m.openPositions + 1, lastTradeTime := Some(now))
  }

  /** Points times contracts, signed by the direction (anything but LONG counts as short). */
  function ExitPnl(direction: string, entry: real, exit: real, quantity: int): (pnl: real)
    ensures direction == "LONG" ==> pnl == (exit - entry) * quantity as real
    ensures direction != "LONG" ==> pnl == (entry - exit) * quantity as real
  {
    if direction == "LONG" then (exit - entry) * quantity as real else (entry - exit) * quantity as real
  }

  /** `_start_cooldown`. */
  function StartCooldown(m: RiskMetrics, risk: ConfigManager.RiskConfig): RiskMetrics
  {
    if risk.coolDownAfterLossMinutes > 0 && m.state != Halted
    then m.(state := Cooldown, stateReason := CooldownAfterLoss(risk.coolDownAfterLossMinutes))
    else m
  }

  /** Is any of the three halting limits breached. */
  predicate Breached(m: RiskMetrics, risk: ConfigManager.RiskConfig)
  {
    m.dailyPnl <= -risk.maxDailyLoss || m.consecutiveLosses >= risk.maxConsecutiveLosses ||
    m.currentDrawdown >= risk.maxDrawdownPercent
  }

  /** `_check_risk_limits`: halt on the first breached limit. */
  function CheckRiskLimits(m: RiskMetrics, risk: ConfigManager.RiskConfig): (r: RiskMetrics)
    ensures Breached(m, risk) ==> r.state == Halted
    ensures !Breached(m, risk) ==> r == m
    ensures r.(state := m.state, stateReason := m.stateReason) == m
  {
    if m.dailyPnl <= -risk.maxDailyLoss then Halt(m, DailyLossHalt)
    else if m.consecutiveLosses >= risk.maxConsecutiveLosses then Halt(m, ConsecutiveLossHalt)
    else if m.currentDrawdown >= risk.maxDrawdownPercent then Halt(m, DrawdownHalt)
    else m
  }

  /** The counters after an exit, before the limit check. */
  function ExitCounters(m: RiskMetrics, risk: ConfigManager.RiskConfig, pnl: real, result: string, now: int): RiskMetrics
  {
    var m1 := m.(dailyPnl := m.dailyPnl + pnl,
                 openPositions := if m.openPositions - 1 > 0 then m.openPositions - 1 else 0);
    ExitEquity(ExitResult(m1, risk, result, now), pnl)
  }

  /** The win and loss counters (and the cooldown a loss starts). */
  function ExitResult(m: RiskMetrics, risk: ConfigManager.RiskConfig, result: string, now: int): RiskMetrics
  {
    if result == "WIN" then m.(dailyWins := m.dailyWins + 1, consecutiveLosses := 0)
    else if result == "LOSS" then
      StartCooldown(m.(dailyLosses := m.dailyLosses + 1,
                       consecutiveLosses := m.consecutiveLosses + 1,
                       lastLossTime := Some(now)), risk)
    else m
  }

  /** Equity, peak and drawdown after the profit or loss. */
  function ExitEquity(m: RiskMetrics, pnl: real): RiskMetrics
  {
    var equity := m.currentEquity + pnl;
    var peak := if equity > m.peakEquity then equity else m.peakEquity;
    var m3 := m.(currentEquity := equity, peakEquity := peak);
    if peak > 0.0 then m3.(currentDrawdown := (peak - equity) / peak * 100.0) else m3
  }

  /** `record_trade_exit`: counters, cooldown, equity and drawdown, then the limit check. */
  function ExitMetrics(m: RiskMetrics, risk: ConfigManager.RiskConfig, pnl: real, result: string, now: int): RiskMetrics
  {
    CheckRiskLimits(ExitCounters(m, risk, pnl, result, now), risk)
  }

  /** What an exit does to the counters and to equity. */
  lemma ExitCountersSpec(m: RiskMetrics, risk: ConfigManager.RiskConfig, pnl: real, result: string, now: int)
    ensures var r := ExitMetrics(m, risk, pnl, result, now);
            r.dailyPnl == m.dailyPnl + pnl &&
            r.openPositions == (if m.openPositions >= 1 then m.openPositions - 1 else 0) &&
            r.openPositions >= 0 &&
            (result == "WIN" ==> r.consecutiveLosses == 0 && r.dailyWins == m.dailyWins + 1 &&
                                 r.dailyLosses == m.dailyLosses) &&
            (result == "LOSS" ==> r.consecutiveLosses == m.consecutiveLosses + 1 &&
                                  r.dailyLosses == m.dailyLosses + 1 && r.dailyWins == m.dailyWins &&
                                  r.lastLossTime == Some(now)) &&
            (result != "WIN" && result != "LOSS" ==>
               r.consecutiveLosses == m.consecutiveLosses && r.dailyWins == m.dailyWins &&
               r.dailyLosses == m.dailyLosses && r.lastLossTime == m.lastLossTime) &&
            r.currentEquity == m.currentEquity + pnl &&
            r.peakEquity == Max(m.peakEquity, m.currentEquity + pnl) &&
            r.dailyTrades == m.dailyTrades && r.dailyVolume == m.dailyVolume
  {
  }

  /**
   * After an exit the peak is at least the equity; the drawdown is
   * recomputed (and is then a non-negative percentage) only when the peak
   * is positive.
   */
  lemma ExitEquitySpec(m: RiskMetrics, risk: ConfigManager.RiskConfig, pnl: real, result: string, now: int)
    ensures var r := ExitMetrics(m, risk, pnl, result, now);
            r.peakEquity >= r.currentEquity && r.peakEquity >= m.peakEquity &&
            (r.peakEquity > 0.0 ==> r.currentDrawdown == (r.peakEquity - r.currentEquity) / r.peakEquity * 100.0 &&
                                    r.currentDrawdown >= 0.0) &&
            (r.peakEquity <= 0.0 ==> r.currentDrawdown == m.currentDrawdown)
  {
    var r := ExitMetrics(m, risk, pnl, result, now);
    if r.peakEquity > 0.0 {
      var d := r.peakEquity - r.currentEquity;
      assert d >= 0.0;
      assert d / r.peakEquity >= 0.0;
    }
  }

  /**
   * The state after an exit: HALTED exactly when it was HALTED or a limit is
   * now breached; otherwise a LOSS enters COOLDOWN when the cooldown is
   * positive, and any other exit keeps the state.
   */
  lemma ExitStateSpec(m: RiskMetrics, risk: ConfigManager.RiskConfig, pnl: real, result: string, now: int)
    ensures var c := ExitCounters(m, risk, pnl, result, now);
            var r := ExitMetrics(m, risk, pnl, result, now);
            (r.state == Halted <==> m.state == Halted || Breached(c, risk)) &&
            (Breached(r, risk) ==> r.state == Halted) &&
            (!Breached(c, risk) && m.state != Halted ==>
               r.state == (if result == "LOSS" && risk.coolDownAfterLossMinutes > 0 then Cooldown else m.state))
  {
    var c := ExitCounters(m, risk, pnl, result, now);
    assert c.state == Halted <==> m.state == Halted;
  }

  /** `get_position_size`: cap, then halve after two losses in a row and again near the daily limit. */
  function PositionSize(m: RiskMetrics, risk: ConfigManager.RiskConfig, base: int): (size: int)
  {
    var s0 := if base <= risk.maxPositionSize then base else risk.maxPositionSize;
    var s1 := if m.consecutiveLosses >= 2 then (if s0 / 2 > 1 then s0 / 2 else 1) else s0;
    if m.dailyTrades >= risk.maxDailyTrades - 1 then (if s1 / 2 > 1 then s1 / 2 else 1) else s1
  }

  /**
   * The size is between 1 and the capped request; each reduction halves it
   * (floor, at least 1) and the two compound to a quarter.
   */
  lemma PositionSizeSpec(m: RiskMetrics, risk: ConfigManager.RiskConfig, base: int)
    ensures var size := PositionSize(m, risk, base);
            var cap := if base <= risk.maxPositionSize then base else risk.maxPositionSize;
            var halve := m.consecutiveLosses >= 2;
            var near := m.dailyTrades >= risk.maxDailyTrades - 1;
            (base >= 1 && risk.maxPositionSize >= 1 ==> 1 <= size <= cap) &&
            (!halve && !near ==> size == cap) &&
            (halve != near ==> size == (if cap / 2 > 1 then cap / 2 else 1)) &&
            (halve && near ==> size == (if cap / 4 > 1 then cap / 4 else 1))
  {
    var cap := if base <= risk.maxPositionSize then base else risk.maxPositionSize;
    var h := if cap / 2 > 1 then cap / 2 else 1;
    if cap >= 2 {
      assert h == cap / 2;
      assert h / 2 == cap / 4;
    } else {
      assert h == 1;
    }
  }

  /** `can_trade`: the state gate and the daily-trade limit, without any change of state. */
  function CanTrade(m: RiskMetrics, risk: ConfigManager.RiskConfig, now: int): Verdict
  {
    if m.state == Halted then Refused(HaltedTrading(m.stateReason))
    else if m.state == Cooldown && CooldownRemaining(m, risk, now) > 0
    then Refused(CooldownActive(CooldownRemaining(m, risk, now)))
    else if m.dailyTrades >= risk.maxDailyTrades then Refused(DailyTradeLimit)
    else Allowed
  }

  /**
   * `can_trade` checks a prefix of `check_pre_trade`: whatever it refuses the
   * pre-trade check refuses for the same reason, and a trade the pre-trade
   * check allows it allows too.
   */
  lemma CanTradeIsPrefix(m: RiskMetrics, risk: ConfigManager.RiskConfig, trading: ConfigManager.TradingConfig,
                         req: TradeRequest, now: int)
    ensures CanTrade(m, risk, now).Refused? ==>
              PreTrade(m, risk, trading, req, now).verdict == CanTrade(m, risk, now)
    ensures PreTrade(m, risk, trading, req, now).verdict == Allowed ==> CanTrade(m, risk, now) == Allowed
    ensures CanTrade(m, risk, now) == Allowed <==>
              forall k :: 0 <= k < 3 ==> !Fails(k, m, risk, trading, req, now)
  {
    var c := CanTrade(m, risk, now);
    if c.Refused? {
      var k := if m.state == Halted then 0 else if c.why.CooldownActive? then 1 else 2;
      assert Fails(k, m, risk, trading, req, now);
    }
  }

  /** `_reset_daily_counters`: daily counters to zero; a halt is lifted but a cooldown is not. */
  function ResetDaily(m: RiskMetrics): (r: RiskMetrics)
    ensures r.dailyTrades == 0 && r.dailyPnl == 0.0 && r.dailyWins == 0 && r.dailyLosses == 0 && r.dailyVolume == 0
    ensures r.consecutiveLosses == m.consecutiveLosses && r.peakEquity == m.peakEquity
    ensures r.currentEquity == m.currentEquity && r.currentDrawdown == m.currentDrawdown
    ensures r.state == (if m.state == Halted then Normal else m.state)
    ensures r.openPositions == m.openPositions
    ensures r.lastTradeTime == m.lastTradeTime && r.lastLossTime == m.lastLossTime
    ensures r.stateReason == (if m.state == Halted then NoReason else m.stateReason)
  {
    var z := m.(dailyTrades := 0, dailyPnl := 0.0, dailyWins := 0, dailyLosses := 0, dailyVolume := 0);
    if z.state == Halted then z.(state := Normal, stateReason := NoReason) else z
  }

  /**
   * HALTED is left only by a manual resume or a new day: the pre-trade
   * check, an entry and an exit all keep it, and the pre-trade check refuses.
   */
  lemma HaltedIsSticky(m: RiskMetrics, risk: ConfigManager.RiskConfig, trading: ConfigManager.TradingConfig,
                       req: TradeRequest, pnl: real, result: string, now: int)
    requires m.state == Halted
    ensures PreTrade(m, risk, trading, req, now) == PreTradeOutcome(Refused(HaltedTrading(m.stateReason)), m)
    ensures EntryMetrics(m, req.quantity, now).state == Halted
    ensures ExitMetrics(m, risk, pnl, result, now).state == Halted
    ensures CanTrade(m, risk, now).Refused?
    ensures ResetDaily(m).state == Normal
  {
    ExitStateSpec(m, risk, pnl, result, now);
  }

  /** The risk manager: configuration fixed at construction, metrics and the day's closed trades updated in place. */
  class EnterpriseRiskManager {
    const risk: ConfigManager.RiskConfig
    const trading: ConfigManager.TradingConfig
    var metrics: RiskMetrics
    var todayTrades: seq<ClosedTrade>

    constructor (risk: ConfigManager.RiskConfig, trading: ConfigManager.TradingConfig)
      ensures this.risk == risk && this.trading == trading
      ensures metrics == InitialMetrics && todayTrades == []
    {
      this.risk := risk;
      this.trading := trading;
      metrics := InitialMetrics;
      todayTrades := [];
    }

    method ResetDailyCounters()
      modifies this
      ensures metrics == ResetDaily(old(metrics)) && todayTrades == []
    {
      metrics := metrics.(dailyTrades := 0, dailyPnl := 0.0, dailyWins := 0, dailyLosses := 0,
                          dailyVolume := 0);
      todayTrades := [];
      if metrics.state == Halted {
        metrics := metrics.(state := Normal, stateReason := NoReason);
      }
    }

    method CheckPreTrade(req: TradeRequest, now: int) returns (verdict: Verdict)
      modifies this`metrics
      ensures verdict == PreTrade(old(metrics), risk, trading, req, now).verdict
      ensures metrics == PreTrade(old(metrics), risk, trading, req, now).metrics
    {
      if metrics.state == Halted {
        return Refused(HaltedTrading(metrics.stateReason));
      }
      if metrics.state == Cooldown {
        var remaining := CooldownRemaining(metrics, risk, now);
        if remaining > 0 {
          return Refused(CooldownActive(remaining));
        } else {
          metrics := metrics.(state := Normal, stateReason := NoReason);
        }
      }
      if metrics.dailyTrades >= risk.maxDailyTrades {
        return Refused(DailyTradeLimit);
      }
      if metrics.dailyPnl <= -risk.maxDailyLoss {
        metrics := Halt(metrics, DailyLossHalt);
        return Refused(DailyLossLimit);
      }
      if metrics.consecutiveLosses >= risk.maxConsecutiveLosses {
        metrics := Halt(metrics, ConsecutiveLossHalt);
        return Refused(ConsecutiveLossLimit);
      }
      if req.quantity > risk.maxPositionSize {
        return Refused(PositionTooLarge);
      }
      var stopDistance := Abs(req.entry - req.stop);
      if stopDistance < risk.stopLossMin as real {
        return Refused(StopTooTight);
      }
      if stopDistance > risk.stopLossMax as real {
        return Refused(StopTooWide);
      }
      var targetDistance := Abs(req.target - req.entry);
      var riskReward := if stopDistance > 0.0 then targetDistance / stopDistance else 0.0;
      if riskReward < trading.minRiskReward {
        return Refused(RiskRewardTooLow);
      }
      if req.confidence < trading.confidenceThreshold {
        return Refused(ConfidenceTooLow);
      }
      if req.direction == "LONG" && req.stop >= req.entry {
        return Refused(LongStopNotBelow);
      }
      if req.direction == "SHORT" && req.stop <= req.entry {
        return Refused(ShortStopNotAbove);
      }
      if req.direction == "LONG" && req.target <= req.entry {
        return Refused(LongTargetNotAbove);
      }
      if req.direction == "SHORT" && req.target >= req.entry {
        return Refused(ShortTargetNotBelow);
      }
      if metrics.dailyVolume + req.quantity > MaxDailyVolume {
        return Refused(DailyVolumeExceeded);
      }
      return Allowed;
    }

    method RecordTradeEntry(quantity: int, now: int)
      modifies this`metrics
      ensures metrics == EntryMetrics(old(metrics), quantity, now)
    {
      metrics := metrics.(dailyTrades := metrics.dailyTrades + 1);
      metrics := metrics.(dailyVolume := metrics.dailyVolume + quantity);
      metrics := metrics.(openPositions := metrics.openPositions + 1);
      metrics := metrics.(lastTradeTime := Some(now));
    }

    method RecordTradeExit(tradeId: string, direction: string, entryPrice: real, exitPrice: real,
                           quantity: int, result: string, now: int)
      modifies this
      ensures metrics == ExitMetrics(old(metrics), risk, ExitPnl(direction, entryPrice, exitPrice, quantity), result, now)
      ensures todayTrades == old(todayTrades) +
                [ClosedTrade(tradeId, direction, entryPrice, exitPrice, quantity,
                             ExitPnl(direction, entryPrice, exitPrice, quantity), result, now)]
    {
      ghost var m0 := metrics;
      var pnl: real;
      if direction == "LONG" {
        pnl := (exitPrice - entryPrice) * quantity as real;
      } else {
        pnl := (entryPrice - exitPrice) * quantity as real;
      }
      assert pnl == ExitPnl(direction, entryPrice, exitPrice, quantity);
      metrics := metrics.(dailyPnl := metrics.dailyPnl + pnl,
                          openPositions := if metrics.openPositions - 1 > 0 then metrics.openPositions - 1 else 0);
      RecordResultNow(result, now);
      UpdateEquityNow(pnl);
      assert metrics == ExitCounters(m0, risk, pnl, result, now);
      todayTrades := todayTrades + [ClosedTrade(tradeId, direction, entryPrice, exitPrice, quantity, pnl, result, now)];
      CheckRiskLimitsNow();
    }

    /** The win and loss counters of `record_trade_exit`, starting the cooldown on a loss. */
    method RecordResultNow(result: string, now: int)
      modifies this`metrics
      ensures metrics == ExitResult(old(metrics), risk, result, now)
    {
      if result == "WIN" {
        metrics := metrics.(dailyWins := metrics.dailyWins + 1, consecutiveLosses := 0);
      } else if result == "LOSS" {
        metrics := metrics.(dailyLosses := metrics.dailyLosses + 1,
                            consecutiveLosses := metrics.consecutiveLosses + 1,
                            lastLossTime := Some(now));
        StartCooldownNow();
      }
    }

    /** The equity, peak and drawdown update of `record_trade_exit`. */
    method UpdateEquityNow(pnl: real)
      modifies this`metrics
      ensures metrics == ExitEquity(old(metrics), pnl)
    {
      metrics := metrics.(currentEquity := metrics.currentEquity + pnl);
      if metrics.currentEquity > metrics.peakEquity {
        metrics := metrics.(peakEquity := metrics.currentEquity);
      }
      if metrics.peakEquity > 0.0 {
        metrics := metrics.(currentDrawdown := (metrics.peakEquity - metrics.currentEquity) / metrics.peakEquity * 100.0);
      }
    }

    method StartCooldownNow()
      modifies this`metrics
      ensures metrics == StartCooldown(old(metrics), risk)
    {
      var minutes := risk.coolDownAfterLossMinutes;
      if minutes > 0 && metrics.state != Halted {
        metrics := metrics.(state := Cooldown, stateReason := CooldownAfterLoss(minutes));
      }
    }

    method CheckRiskLimitsNow()
      modifies this`metrics
      ensures metrics == CheckRiskLimits(old(metrics), risk)
    {
      if metrics.dailyPnl <= -risk.maxDailyLoss {
        metrics := Halt(metrics, DailyLossHalt);
        return;
      }
      if metrics.consecutiveLosses >= risk.maxConsecutiveLosses {
        metrics := Halt(metrics, ConsecutiveLossHalt);
        return;
      }
      if metrics.currentDrawdown >= risk.maxDrawdownPercent {
        metrics := Halt(metrics, DrawdownHalt);
        return;
      }
    }

    method GetPositionSize(base: int) returns (size: int)
      ensures size == PositionSize(metrics, risk, base)
      ensures base >= 1 && risk.maxPositionSize >= 1 ==> 1 <= size <= base && size <= risk.maxPositionSize
    {
      size := if base <= risk.maxPositionSize then base else risk.maxPositionSize;
      if metrics.consecutiveLosses >= 2 {
        size := if size / 2 > 1 then size / 2 else 1;
      }
      if metrics.dailyTrades >= risk.maxDailyTrades - 1 {
        size := if size / 2 > 1 then size / 2 else 1;
      }
      PositionSizeSpec(metrics, risk, base);
    }

    /** Reads the state and never changes it, even when the cooldown has expired. */
    method QueryCanTrade(now: int) returns (verdict: Verdict)
      ensures verdict == CanTrade(metrics, risk, now)
      ensures verdict == Allowed <==>
                metrics.state != Halted &&
                !(metrics.state == Cooldown && CooldownRemaining(metrics, risk, now) > 0) &&
                metrics.dailyTrades < risk.maxDailyTrades
    {
      if metrics.state == Halted {
        return Refused(HaltedTrading(metrics.stateReason));
      }
      if metrics.state == Cooldown {
        var remaining := CooldownRemaining(metrics, risk, now);
        if remaining > 0 {
          return Refused(CooldownActive(remaining));
        }
      }
      if metrics.dailyTrades >= risk.maxDailyTrades {
        return Refused(DailyTradeLimit);
      }
      return Allowed;
    }

    method ResumeTrading() returns (resumed: bool)
      modifies this`metrics
      ensures resumed == (old(metrics).state == Halted)
      ensures metrics == if resumed then old(metrics).(state := Normal, stateReason := NoReason) else old(metrics)
    {
      if metrics.state == Halted {
        metrics := metrics.(state := Normal, stateReason := NoReason);
        return true;
      }
      return false;
    }
  }
}
