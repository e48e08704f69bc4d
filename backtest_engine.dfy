/**
 * The batch back-tester (src/backtest_engine.py): zones detected over the
 * whole history, aged and filled bar by bar in place, filtered to the active
 * ones, and a single-position loop (the rule-based path) that opens on an EMA
 * trend plus a nearby zone and closes on stop or target.
 */
module BacktestEngine {
  import opened Common
  import FairValueGaps
  import FvgAnalyzer

  /** A back-test zone: a detected gap plus its age in bars. */
  datatype BtZone = BtZone(kind: FairValueGaps.FvgKind, top: real, bottom: real, gapSize: real,
                           time: int, index: int, filled: bool, ageBars: int)

  /** A bar with the indicator columns the rule-based path reads (absent columns read as 0). */
  datatype BacktestBar = BacktestBar(bar: Bar, ema21: real, ema75: real)

  datatype BacktestConfig = BacktestConfig(minGapSize: real, maxGapAgeBars: int)

  datatype Position = Position(direction: string, entryBar: int, entryTime: int, entry: real,
                               stop: real, target: real, setupType: string, confidence: real)

  datatype ExitData = ExitData(exitPrice: real, exitReason: string, result: string)

  datatype TradeRecord = TradeRecord(position: Position, exitBar: int, exitTime: int, exitPrice: real,
                                     exitReason: string, result: string, profitLoss: real,
                                     riskRewardAchieved: real, barsHeld: int)

  function AsBtZone(z: FairValueGaps.Zone): BtZone
  {
    BtZone(z.kind, z.top, z.bottom, z.gapSize, z.time, z.index, false, 0)
  }

  /** `fvgs` is `scan` with each zone turned into a back-test zone. */
  predicate Detected(fvgs: seq<BtZone>, scan: seq<FairValueGaps.Zone>)
  {
    |fvgs| == |scan| && forall k :: 0 <= k < |fvgs| ==> fvgs[k] == AsBtZone(scan[k])
  }

  lemma DetectedAppend(fvgs: seq<BtZone>, scan: seq<FairValueGaps.Zone>, z: FairValueGaps.Zone)
    requires Detected(fvgs, scan)
    ensures Detected(fvgs + [AsBtZone(z)], scan + [z])
  {
  }

  /** Same triple rule as the live engine, with the configured minimum gap and age 0. */
  method DetectFvgsHistorical(bars: seq<Bar>, minGapSize: real) returns (fvgs: seq<BtZone>)
    ensures Detected(fvgs, FairValueGaps.ScanZones(bars, |bars|, minGapSize))
  {
    fvgs := [];
    if |bars| < 3 {
      return;
    }
    var i := 2;
    while i < |bars|
      invariant 2 <= i <= |bars|
      invariant Detected(fvgs, FairValueGaps.ScanZones(bars, i, minGapSize))
    {
      ghost var scan := FairValueGaps.ScanZones(bars, i, minGapSize);
      var z := FairValueGaps.TripleZone(bars, i, minGapSize);
      if z.Some? {
        DetectedAppend(fvgs, scan, z.value);
        fvgs := fvgs + [AsBtZone(z.value)];
      }
      i := i + 1;
    }
  }

  /** Back-test fill rule: a bullish zone fills when the high reaches its top, a bearish one when the low reaches its bottom. */
  predicate BtFills(z: BtZone, b: Bar)
  {
    (z.kind == FairValueGaps.Bullish && b.high >= z.top) || (z.kind == FairValueGaps.Bearish && b.low <= z.bottom)
  }

  /** A filled zone is frozen; an unfilled one is re-aged from the current index and may fill. */
  function UpdateZone(z: BtZone, b: Bar, currentIndex: int): (r: BtZone)
    ensures z.filled ==> r == z
    ensures !z.filled ==> r.ageBars == currentIndex - z.index && r.filled == BtFills(z, b)
    ensures r.(filled := z.filled, ageBars := z.ageBars) == z
  {
    if z.filled then z
    else
      var aged := z.(ageBars := currentIndex - z.index);
      if BtFills(z, b) then aged.(filled := true) else aged
  }

  /** Age and fill every zone, in place. */
  method UpdateFvgStatus(fvgs: array<BtZone>, currentBar: Bar, currentIndex: int)
    modifies fvgs
    ensures forall k :: 0 <= k < fvgs.Length ==> fvgs[k] == UpdateZone(old(fvgs[k]), currentBar, currentIndex)
  {
    var k := 0;
    while k < fvgs.Length
      invariant 0 <= k <= fvgs.Length
      invariant forall j :: 0 <= j < k ==> fvgs[j] == UpdateZone(old(fvgs[j]), currentBar, currentIndex)
      invariant forall j :: k <= j < fvgs.Length ==> fvgs[j] == old(fvgs[j])
    {
      var z := fvgs[k];
      if !z.filled {
        z := z.(ageBars := currentIndex - z.index);
        if z.kind == FairValueGaps.Bullish && currentBar.high >= z.top {
          z := z.(filled := true);
        } else if z.kind == FairValueGaps.Bearish && currentBar.low <= z.bottom {
          z := z.(filled := true);
        }
        fvgs[k] := z;
      }
      k := k + 1;
    }
  }

  /** A zone from a later bar is not skipped: it gets a negative age and an earlier bar can fill it. */
  lemma FutureZoneIsAgedAndFilled()
    ensures var z := BtZone(FairValueGaps.Bullish, 110.0, 100.0, 10.0, 0, 50, false, 0);
            var r := UpdateZone(z, Bar(0, 105.0, 115.0, 104.0, 112.0), 10);
            r.ageBars == -40 && r.filled
  {
  }

  /** The two engines disagree on the same bullish zone and bar: the back-test fills it, the live engine does not. */
  lemma FillRulesDiffer()
    ensures var b := Bar(0, 105.0, 112.0, 104.0, 108.0);
            BtFills(BtZone(FairValueGaps.Bullish, 110.0, 100.0, 10.0, 0, 2, false, 0), b)
            && !FairValueGaps.BarFills(FairValueGaps.Zone(FairValueGaps.Bullish, 110.0, 100.0, 10.0, 0, 2, false), b)
  {
  }

  predicate IsActive(z: BtZone, currentIndex: int, maxAge: int)
  {
    !z.filled && !(z.index > currentIndex) && !(z.ageBars > maxAge)
  }

  /** Exactly the unfilled zones that are not from the future and not older than the maximum, in order. */
  function GetActiveFvgs(fvgs: seq<BtZone>, currentIndex: int, maxAge: int): (r: seq<BtZone>)
    ensures forall i :: 0 <= i < |r| ==> r[i] in fvgs && IsActive(r[i], currentIndex, maxAge)
    ensures forall i :: 0 <= i < |fvgs| && IsActive(fvgs[i], currentIndex, maxAge) ==> fvgs[i] in r
  {
    Filter(z => IsActive(z, currentIndex, maxAge), fvgs)
  }

  /** The stop is checked before the target, so a bar through both closes at the stop as a loss. */
  function CheckExitConditions(p: Position, b: Bar): (r: Option<ExitData>)
    ensures p.direction == "LONG" && b.low <= p.stop ==> r == Some(ExitData(p.stop, "stop_loss", "LOSS"))
    ensures p.direction == "LONG" && !(b.low <= p.stop) && b.high >= p.target ==> r == Some(ExitData(p.target, "target_hit", "WIN"))
    ensures p.direction == "SHORT" && b.high >= p.stop ==> r == Some(ExitData(p.stop, "stop_loss", "LOSS"))
    ensures p.direction == "SHORT" && !(b.high >= p.stop) && b.low <= p.target ==> r == Some(ExitData(p.target, "target_hit", "WIN"))
    ensures r.Some? ==> (p.direction == "LONG" || p.direction == "SHORT")
    ensures r.Some? ==> r.value.exitPrice == p.stop || r.value.exitPrice == p.target
  {
    if p.direction == "LONG" then
      if b.low <= p.stop then Some(ExitData(p.stop, "stop_loss", "LOSS"))
      else if b.high >= p.target then Some(ExitData(p.target, "target_hit", "WIN"))
      else None
    else if p.direction == "SHORT" then
      if b.high >= p.stop then Some(ExitData(p.stop, "stop_loss", "LOSS"))
      else if b.low <= p.target then Some(ExitData(p.target, "target_hit", "WIN"))
      else None
    else None
  }

  /** The recorded result comes from the P/L with a half-point buffer, not from the exit kind. */
  function ClassifyPnl(pnl: real): (result: string)
    ensures result == "LOSS" <==> pnl < -0.5
    ensures result == "WIN" <==> pnl > 0.5
    ensures result == "BREAKEVEN" <==> -0.5 <= pnl <= 0.5
  {
    if pnl < -0.5 then "LOSS" else if pnl > 0.5 then "WIN" else "BREAKEVEN"
  }

  function CloseTrade(p: Position, e: ExitData, exitBar: int, exitTime: int, barsHeld: int): (t: TradeRecord)
    ensures t.position == p && t.exitBar == exitBar && t.barsHeld == barsHeld && t.exitPrice == e.exitPrice
    ensures t.profitLoss == if p.direction == "SHORT" then p.entry - e.exitPrice else e.exitPrice - p.entry
    ensures t.result == ClassifyPnl(t.profitLoss)
    ensures t.result == "WIN" ==> t.riskRewardAchieved >= 0.0
    ensures t.result != "WIN" ==> t.riskRewardAchieved == -1.0
    ensures t.result == "WIN" && p.entry != p.stop ==> t.riskRewardAchieved * Abs(p.entry - p.stop) == Abs(t.profitLoss)
    ensures t.result == "WIN" && p.entry == p.stop ==> t.riskRewardAchieved == 0.0
  {
    var pnl := (e.exitPrice - p.entry) * (if p.direction == "SHORT" then -1.0 else 1.0);
    var risk := Abs(p.entry - p.stop);
    var rr := if risk > 0.0 then Abs(pnl) / risk else 0.0;
    var result := ClassifyPnl(pnl);
    TradeRecord(p, exitBar, exitTime, e.exitPrice, e.exitReason, result, pnl,
                if result == "WIN" then rr else -1.0, barsHeld)
  }

  function ToRaw(z: BtZone): FvgAnalyzer.RawFvg
  {
    FvgAnalyzer.RawFvg(if z.kind == FairValueGaps.Bullish then "bullish" else "bearish",
                       z.top, z.bottom, z.gapSize, z.time, Some(z.filled), Some(z.ageBars), Some(z.index))
  }

  function ToRawAll(zs: seq<BtZone>): seq<FvgAnalyzer.RawFvg>
  {
    seq(|zs|, i requires 0 <= i < |zs| => ToRaw(zs[i]))
  }

  /**
   * The rule-based entry: LONG on ema21 > ema75 with a nearest bullish zone whose
   * bottom is within 100 points (target its top); otherwise SHORT on ema21 < ema75
   * with a nearest bearish zone whose top is within 100 points (target its bottom).
   */
  function SimpleEntry(ctx: FvgAnalyzer.MarketContext, bb: BacktestBar, i: int): Option<Position>
  {
    var price := bb.bar.close;
    if bb.ema21 > bb.ema75 && ctx.nearestBullishFvg.Some?
       && Abs(price - ctx.nearestBullishFvg.value.zone.bottom) < 100.0
    then Some(Position("LONG", i, bb.bar.time, price, price - 20.0,
                       ctx.nearestBullishFvg.value.zone.top, "fvg_ema_aligned", 0.6))
    else if bb.ema21 < bb.ema75 && ctx.nearestBearishFvg.Some?
       && Abs(price - ctx.nearestBearishFvg.value.zone.top) < 100.0
    then Some(Position("SHORT", i, bb.bar.time, price, price + 20.0,
                       ctx.nearestBearishFvg.value.zone.bottom, "fvg_ema_aligned", 0.6))
    else None
  }

  /**
   * The nearest bullish zone lies below price and the nearest bearish zone above it,
   * so a rule-based LONG always has its target below entry and a SHORT above entry.
   */
  lemma SimpleEntryTargetSide(cfg: FvgAnalyzer.AnalyzerConfig, bb: BacktestBar, i: int, active: seq<FvgAnalyzer.RawFvg>)
    ensures var p := SimpleEntry(FvgAnalyzer.AnalyzeMarketContext(cfg, bb.bar.close, active), bb, i);
            p.Some? ==> (p.value.direction == "LONG" || p.value.direction == "SHORT")
                        && p.value.entryBar == i && p.value.entry == bb.bar.close
                        && (p.value.direction == "LONG" ==> p.value.target < p.value.entry && p.value.stop == p.value.entry - 20.0)
                        && (p.value.direction == "SHORT" ==> p.value.target > p.value.entry && p.value.stop == p.value.entry + 20.0)
  {
    FvgAnalyzer.AnalyzeMarketContextSpec(cfg, bb.bar.close, active);
  }

  /** What every closed trade of the loop satisfies. */
  predicate WellFormedTrade(t: TradeRecord)
  {
    t.barsHeld >= 1 && t.barsHeld == t.exitBar - t.position.entryBar
    && t.result == ClassifyPnl(t.profitLoss)
    && (t.result != "WIN" ==> t.riskRewardAchieved == -1.0)
    && (t.position.direction == "LONG" ==> t.position.target < t.position.entry)
    && (t.position.direction == "SHORT" ==> t.position.target > t.position.entry)
    && (t.position.direction == "LONG" || t.position.direction == "SHORT")
  }

  /** The trade list the loop builds: well formed, inside [3, bound), each opening after the previous closed. */
  predicate TradeLog(trades: seq<TradeRecord>, bound: int)
  {
    (forall k :: 0 <= k < |trades| ==> WellFormedTrade(trades[k]))
    && (forall k :: 0 <= k < |trades| ==> 3 <= trades[k].position.entryBar && trades[k].exitBar < bound)
    && (forall k :: 0 < k < |trades| ==> trades[k - 1].exitBar < trades[k].position.entryBar)
  }

  predicate OpenPositionOk(p: Position)
  {
    (p.direction == "LONG" || p.direction == "SHORT")
    && (p.direction == "LONG" ==> p.target < p.entry)
    && (p.direction == "SHORT" ==> p.target > p.entry)
  }

  /** Closing the open position at bar i extends the log. */
  lemma CloseExtendsLog(trades: seq<TradeRecord>, p: Position, e: ExitData, i: int, time: int, held: int)
    requires TradeLog(trades, i) && OpenPositionOk(p)
    requires 3 <= p.entryBar < i && held == i - p.entryBar
    requires |trades| > 0 ==> trades[|trades| - 1].exitBar < p.entryBar
    ensures TradeLog(trades + [CloseTrade(p, e, i, time, held)], i + 1)
  {
    var t := CloseTrade(p, e, i, time, held);
    assert WellFormedTrade(t);
    var ts := trades + [t];
    forall k | 0 < k < |ts| ensures ts[k - 1].exitBar < ts[k].position.entryBar {
      if k < |trades| { assert ts[k - 1] == trades[k - 1] && ts[k] == trades[k]; }
    }
  }

  /** A log inside [3, bound) is inside [3, bound + 1). */
  lemma TradeLogGrows(trades: seq<TradeRecord>, bound: int)
    requires TradeLog(trades, bound)
    ensures TradeLog(trades, bound + 1)
  {
  }

  /** A rule-based entry at bar i is an open position entered at i. */
  lemma EntryIsOpenPosition(cfg: FvgAnalyzer.AnalyzerConfig, bb: BacktestBar, i: int, active: seq<FvgAnalyzer.RawFvg>)
    ensures var p := SimpleEntry(FvgAnalyzer.AnalyzeMarketContext(cfg, bb.bar.close, active), bb, i);
            p.Some? ==> OpenPositionOk(p.value) && p.value.entryBar == i
  {
    SimpleEntryTargetSide(cfg, bb, i, active);
  }

  /** The loop's state before bar i: the log so far and the position still open, if any. */
  predicate LoopState(trades: seq<TradeRecord>, position: Option<Position>, barsInPosition: int, i: int)
  {
    3 <= i && TradeLog(trades, i)
    && (position.None? ==> barsInPosition == 0)
    && (position.Some? ==>
          3 <= position.value.entryBar < i && barsInPosition == i - 1 - position.value.entryBar
          && OpenPositionOk(position.value)
          && (|trades| > 0 ==> trades[|trades| - 1].exitBar < position.value.entryBar))
  }

  /**
   * One bar of the position loop, once the zones are updated: an open position is
   * closed on its stop or target and no entry is considered; without one, the
   * rule-based entry is tried when some zone is active. The loop's state carries
   * over to the next bar.
   */
  method ProcessBar(trades: seq<TradeRecord>, position: Option<Position>, barsInPosition: int,
                    current: BacktestBar, i: int, active: seq<BtZone>, acfg: FvgAnalyzer.AnalyzerConfig)
    returns (trades': seq<TradeRecord>, position': Option<Position>, barsInPosition': int)
    requires LoopState(trades, position, barsInPosition, i)
    ensures LoopState(trades', position', barsInPosition', i + 1)
    ensures position.None? ==> trades' == trades
    ensures position.None? && |active| == 0 ==> position' == None
    ensures position.None? && |active| > 0 ==>
              position' == SimpleEntry(FvgAnalyzer.AnalyzeMarketContext(acfg, current.bar.close, ToRawAll(active)), current, i)
    ensures position.Some? && CheckExitConditions(position.value, current.bar).None? ==>
              trades' == trades && position' == position
    ensures position.Some? && CheckExitConditions(position.value, current.bar).Some? ==>
              position' == None &&
              trades' == trades + [CloseTrade(position.value, CheckExitConditions(position.value, current.bar).value,
                                              i, current.bar.time, barsInPosition + 1)]
  {
    trades', position', barsInPosition' := trades, position, barsInPosition;
    if position.Some? {
      barsInPosition' := barsInPosition + 1;
      var exit := CheckExitConditions(position.value, current.bar);
      if exit.Some? {
        var t := CloseTrade(position.value, exit.value, i, current.bar.time, barsInPosition');
        CloseExtendsLog(trades, position.value, exit.value, i, current.bar.time, barsInPosition');
        trades' := trades + [t];
        position' := None;
        barsInPosition' := 0;
      } else {
        TradeLogGrows(trades, i);
      }
    } else {
      TradeLogGrows(trades, i);
      if |active| > 0 {
        var raw := ToRawAll(active);
        var context := FvgAnalyzer.AnalyzeMarketContext(acfg, current.bar.close, raw);
        EntryIsOpenPosition(acfg, current, i, raw);
        position' := SimpleEntry(context, current, i);
      }
    }
  }

  /**
   * The position loop of the rule-based back-test, from bar 3 on. While a position
   * is open no entry is considered; every closed trade is held at least one bar, and
   * each trade opens strictly after the previous one closed.
   */
  method RunBacktest(bars: seq<BacktestBar>, cfg: BacktestConfig) returns (trades: seq<TradeRecord>)
    ensures TradeLog(trades, |bars|)
  {
    var plain := seq(|bars|, k requires 0 <= k < |bars| => bars[k].bar);
    var detected := DetectFvgsHistorical(plain, cfg.minGapSize);
    var zones := new BtZone[|detected|](k requires 0 <= k < |detected| => detected[k]);
    var acfg := FvgAnalyzer.AnalyzerConfig(cfg.minGapSize, cfg.maxGapAgeBars);
    trades := [];
    var position: Option<Position> := None;
    var barsInPosition := 0;
    var i := 3;
    if |bars| <= i {
      return;
    }
    while i < |bars|
      invariant i <= |bars|
      invariant LoopState(trades, position, barsInPosition, i)
    {
      var current := bars[i];
      UpdateFvgStatus(zones, current.bar, i);
      var active := GetActiveFvgs(zones[..], i, cfg.maxGapAgeBars);
      trades, position, barsInPosition := ProcessBar(trades, position, barsInPosition, current, i, active, acfg);
      i := i + 1;
    }
  }

  // ---------------------------------------------------------------------
  // Statistics
  // ---------------------------------------------------------------------

  datatype TypeStats = TypeStats(trades: nat, wins: nat, losses: nat, winRate: real, totalPnl: real, avgPnl: real)

  datatype BacktestStats = BacktestStats(totalTrades: nat, wins: nat, losses: nat, breakeven: nat,
                                         winRate: real, totalPnl: real, avgPnl: real, maxWin: real,
                                         maxLoss: real, avgBarsHeld: real,
                                         bySetupType: Option<map<string, TypeStats>>)

  predicate HasResult(res: string, t: TradeRecord) { t.result == res }

  function Pnl(t: TradeRecord): real { t.profitLoss }

  function BarsHeld(t: TradeRecord): real { t.barsHeld as real }

  /** Largest P/L of a non-empty list. */
  function MaxPnl(ts: seq<TradeRecord>): (m: real)
    requires |ts| > 0
    ensures forall k :: 0 <= k < |ts| ==> ts[k].profitLoss <= m
    ensures exists k :: 0 <= k < |ts| && ts[k].profitLoss == m
    decreases |ts|
  {
    if |ts| == 1 then ts[0].profitLoss
    else
      var rest := MaxPnl(ts[..|ts| - 1]);
      assert forall k :: 0 <= k < |ts| - 1 ==> ts[..|ts| - 1][k] == ts[k];
      Max(rest, ts[|ts| - 1].profitLoss)
  }

  /** Smallest P/L of a non-empty list. */
  function MinPnl(ts: seq<TradeRecord>): (m: real)
    requires |ts| > 0
    ensures forall k :: 0 <= k < |ts| ==> m <= ts[k].profitLoss
    ensures exists k :: 0 <= k < |ts| && ts[k].profitLoss == m
    decreases |ts|
  {
    if |ts| == 1 then ts[0].profitLoss
    else
      var rest := MinPnl(ts[..|ts| - 1]);
      assert forall k :: 0 <= k < |ts| - 1 ==> ts[..|ts| - 1][k] == ts[k];
      Min(rest, ts[|ts| - 1].profitLoss)
  }

  function TypeStatsOf(ts: seq<TradeRecord>): TypeStats
    requires |ts| > 0
  {
    var w := Count(t => HasResult("WIN", t), ts);
    var total := Sum(Pnl, ts);
    TypeStats(|ts|, w, Count(t => HasResult("LOSS", t), ts), w as real / |ts| as real, total, total / |ts| as real)
  }

  /** Per-setup breakdown: a key for `fvg_only` or `level_only` only when such trades exist. */
  function BySetupType(ts: seq<TradeRecord>): (m: map<string, TypeStats>)
    ensures m.Keys <= {"fvg_only", "level_only"}
    ensures "fvg_only" in m <==> exists k :: 0 <= k < |ts| && ts[k].position.setupType == "fvg_only"
    ensures "level_only" in m <==> exists k :: 0 <= k < |ts| && ts[k].position.setupType == "level_only"
    ensures "fvg_only" in m ==> 0 < m["fvg_only"].trades <= |ts|
    ensures "level_only" in m ==> 0 < m["level_only"].trades <= |ts|
  {
    var f := Filter((t: TradeRecord) => t.position.setupType == "fvg_only", ts);
    var l := Filter((t: TradeRecord) => t.position.setupType == "level_only", ts);
    var m1 := if |f| > 0 then map["fvg_only" := TypeStatsOf(f)] else map[];
    if |l| > 0 then m1["level_only" := TypeStatsOf(l)] else m1
  }

  /** Wins over decided trades, 0 with none decided. */
  function WinRate(wins: nat, losses: nat): real
  {
    if wins + losses > 0 then wins as real / (wins + losses) as real else 0.0
  }

  function CalculateBacktestStats(trades: seq<TradeRecord>): (s: BacktestStats)
    ensures |trades| == 0 ==> s == BacktestStats(0, 0, 0, 0, 0.0, 0.0, 0.0, 0.0, 0.0, 0.0, None)
    ensures s.totalTrades == |trades|
    ensures s.winRate == WinRate(s.wins, s.losses)
    ensures |trades| > 0 ==> forall k :: 0 <= k < |trades| ==> s.maxLoss <= trades[k].profitLoss <= s.maxWin
  {
    if |trades| == 0 then BacktestStats(0, 0, 0, 0, 0.0, 0.0, 0.0, 0.0, 0.0, 0.0, None)
    else TradeStats(trades)
  }

  /** The statistics of a non-empty trade list. */
  function TradeStats(trades: seq<TradeRecord>): (s: BacktestStats)
    requires |trades| > 0
    ensures s.totalTrades == |trades|
    ensures s.winRate == WinRate(s.wins, s.losses)
    ensures forall k :: 0 <= k < |trades| ==> s.maxLoss <= trades[k].profitLoss <= s.maxWin
  {
      var wins := Count(t => HasResult("WIN", t), trades);
      var losses := Count(t => HasResult("LOSS", t), trades);
      var breakeven := Count(t => HasResult("BREAKEVEN", t), trades);
      var total := Sum(Pnl, trades);
      BacktestStats(|trades|, wins, losses, breakeven,
                    WinRate(wins, losses),
                    total, total / |trades| as real, MaxPnl(trades), MinPnl(trades),
                    Sum(BarsHeld, trades) / |trades| as real, Some(BySetupType(trades)))
  }

  lemma {:induction false} ThreeWayCount(ts: seq<TradeRecord>)
    requires forall k :: 0 <= k < |ts| ==> ts[k].result in {"WIN", "LOSS", "BREAKEVEN"}
    ensures Count(t => HasResult("WIN", t), ts) + Count(t => HasResult("LOSS", t), ts)
            + Count(t => HasResult("BREAKEVEN", t), ts) == |ts|
    decreases |ts|
  {
    if ts != [] {
      ThreeWayCount(ts[..|ts| - 1]);
    }
  }

  /** When every trade is classified, wins, losses and breakevens add up to the total. */
  lemma StatsCountsAddUp(trades: seq<TradeRecord>)
    requires forall k :: 0 <= k < |trades| ==> trades[k].result in {"WIN", "LOSS", "BREAKEVEN"}
    ensures var s := CalculateBacktestStats(trades);
            s.wins + s.losses + s.breakeven == s.totalTrades
  {
    if |trades| > 0 {
      ThreeWayCount(trades);
    }
  }

  /** Every trade of the loop is classified, so its statistics add up. */
  lemma LoopTradesAreClassified(trades: seq<TradeRecord>)
    requires forall k :: 0 <= k < |trades| ==> WellFormedTrade(trades[k])
    ensures forall k :: 0 <= k < |trades| ==> trades[k].result in {"WIN", "LOSS", "BREAKEVEN"}
  {
  }
}
