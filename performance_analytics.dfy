/**
 * Trade journal statistics (src/performance_analytics.py): each closed
 * trade is classified from its point result, the journal is summarised into
 * period statistics (counts, P/L totals and averages, longest win and loss
 * streaks, maximum drawdown from a zero starting peak), and an equity curve
 * is built in exit-time order.
 */
module PerformanceAnalytics {
  import opened Common
  import opened Sorting

  datatype TradeResult = Win | Loss | Breakeven

  /** `TradeMetrics`, with times as integer seconds. */
  datatype TradeMetrics = TradeMetrics(
    tradeId: string, direction: string,
    entryPrice: real, exitPrice: real, stopLoss: real, target: real, quantity: int,
    pnl: real, pnlPoints: real, result: TradeResult,
    riskRewardTarget: real, riskRewardActual: real,
    confidence: real, setupType: string, entryTime: int, exitTime: int, barsHeld: int,
    maxFavorable: real, maxAdverse: real)

  function Pnl(t: TradeMetrics): real { t.pnl }
  function AbsPnl(t: TradeMetrics): real { Abs(t.pnl) }
  function RrActual(t: TradeMetrics): real { t.riskRewardActual }
  function BarsHeld(t: TradeMetrics): real { t.barsHeld as real }
  function EntryKey(t: TradeMetrics): real { t.entryTime as real }
  function ExitKey(t: TradeMetrics): real { t.exitTime as real }
  predicate IsWin(t: TradeMetrics) { t.result == Win }
  predicate IsLoss(t: TradeMetrics) { t.result == Loss }
  predicate IsBreakeven(t: TradeMetrics) { t.result == Breakeven }

  // ---------------------------------------------------------------- record_trade

  /** WIN above half a point, LOSS below minus half a point, BREAKEVEN in between (bounds included). */
  function Classify(points: real): TradeResult
  {
    if points > 0.5 then Win else if points < -0.5 then Loss else Breakeven
  }

  /** A distance over the risk, or 0 when there is no risk. */
  function RiskMultiple(distance: real, risk: real): real
  {
    if risk > 0.0 then distance / risk else 0.0
  }

  /** The record `record_trade` builds from a closed trade. */
  function MakeTrade(tradeId: string, direction: string, entryPrice: real, exitPrice: real,
                     stopLoss: real, target: real, quantity: int, confidence: real, setupType: string,
                     entryTime: int, exitTime: int, barsHeld: int, maxFavorable: real, maxAdverse: real)
    : TradeMetrics
  {
    var points := if direction == "LONG" then exitPrice - entryPrice else entryPrice - exitPrice;
    var risk := Abs(entryPrice - stopLoss);
    TradeMetrics(tradeId, direction, entryPrice, exitPrice, stopLoss, target, quantity,
                 points * quantity as real, points, Classify(points),
                 RiskMultiple(Abs(target - entryPrice), risk), RiskMultiple(Abs(points), risk),
                 confidence, setupType, entryTime, exitTime, barsHeld, maxFavorable, maxAdverse)
  }

  /**
   * Points are signed by direction (any direction other than LONG is
   * treated as a short), P/L is points times quantity, the result is decided
   * by the half-point band, and both reward multiples are non-negative
   * multiples of the stop distance, 0 when entry equals stop.
   */
  lemma MakeTradeSpec(tradeId: string, direction: string, entryPrice: real, exitPrice: real,
                      stopLoss: real, target: real, quantity: int, confidence: real, setupType: string,
                      entryTime: int, exitTime: int, barsHeld: int, maxFavorable: real, maxAdverse: real)
    ensures var t := MakeTrade(tradeId, direction, entryPrice, exitPrice, stopLoss, target, quantity,
                               confidence, setupType, entryTime, exitTime, barsHeld, maxFavorable, maxAdverse);
            var risk := Abs(entryPrice - stopLoss);
            t.pnlPoints + (if direction == "LONG" then entryPrice else exitPrice)
              == (if direction == "LONG" then exitPrice else entryPrice) &&
            t.pnl == t.pnlPoints * quantity as real &&
            (t.result == Win <==> t.pnlPoints > 0.5) &&
            (t.result == Loss <==> t.pnlPoints < -0.5) &&
            (t.result == Breakeven <==> -0.5 <= t.pnlPoints <= 0.5) &&
            t.riskRewardTarget >= 0.0 && t.riskRewardActual >= 0.0 &&
            (risk == 0.0 ==> t.riskRewardTarget == 0.0 && t.riskRewardActual == 0.0) &&
            (risk > 0.0 ==> t.riskRewardTarget * risk == Abs(target - entryPrice) &&
                            t.riskRewardActual * risk == Abs(t.pnlPoints))
  {
    var risk := Abs(entryPrice - stopLoss);
    if risk > 0.0 {
      var points := if direction == "LONG" then exitPrice - entryPrice else entryPrice - exitPrice;
      assert Abs(target - entryPrice) / risk * risk == Abs(target - entryPrice);
      assert Abs(points) / risk * risk == Abs(points);
    }
  }

  /**
   * Taking the other side of the same prices negates the points and the
   * P/L and swaps WIN with LOSS, keeping BREAKEVEN.
   */
  lemma OppositeSideMirrors(entryPrice: real, exitPrice: real, stopLoss: real, target: real,
                            quantity: int, entryTime: int, exitTime: int)
    ensures var long := MakeTrade("", "LONG", entryPrice, exitPrice, stopLoss, target, quantity,
                                  0.0, "", entryTime, exitTime, 0, 0.0, 0.0);
            var short := MakeTrade("", "SHORT", entryPrice, exitPrice, stopLoss, target, quantity,
                                   0.0, "", entryTime, exitTime, 0, 0.0, 0.0);
            short.pnlPoints == -long.pnlPoints && short.pnl == -long.pnl &&
            (long.result == Win <==> short.result == Loss) &&
            (long.result == Loss <==> short.result == Win) &&
            (long.result == Breakeven <==> short.result == Breakeven) &&
            short.riskRewardActual == long.riskRewardActual
  {
    var points := exitPrice - entryPrice;
    assert (-points) * quantity as real == -(points * quantity as real);
  }

  /** A trade closed exactly at its target realises the planned reward multiple. */
  lemma ExitAtTargetRealisesPlan(direction: string, entryPrice: real, stopLoss: real, target: real,
                                 quantity: int)
    ensures var t := MakeTrade("", direction, entryPrice, target, stopLoss, target, quantity,
                               0.0, "", 0, 0, 0, 0.0, 0.0);
            t.riskRewardActual == t.riskRewardTarget
  {
  }

  /** The journal: `record_trade` appends one record per closed trade. */
  class PerformanceAnalytics {
    var trades: seq<TradeMetrics>

    /** Starts from the trades loaded from the journal file. */
    constructor(loaded: seq<TradeMetrics>)
      ensures trades == loaded
    {
      trades := loaded;
    }

    method RecordTrade(tradeId: string, direction: string, entryPrice: real, exitPrice: real,
                       stopLoss: real, target: real, quantity: int, confidence: real, setupType: string,
                       entryTime: int, exitTime: int, barsHeld: int, maxFavorable: real, maxAdverse: real)
      modifies this
      ensures trades == old(trades) + [MakeTrade(tradeId, direction, entryPrice, exitPrice, stopLoss, target,
                                                 quantity, confidence, setupType, entryTime, exitTime,
                                                 barsHeld, maxFavorable, maxAdverse)]
    {
      var t := MakeTrade(tradeId, direction, entryPrice, exitPrice, stopLoss, target, quantity,
                         confidence, setupType, entryTime, exitTime, barsHeld, maxFavorable, maxAdverse);
      trades := trades + [t];
    }

    /** `get_equity_curve`: running equity over the trades sorted (stably) by exit time. */
    method GetEquityCurve() returns (curve: seq<EquityPoint>)
      ensures var sorted := SortByKey(ExitKey, trades);
              |curve| == |trades| &&
              (forall i :: 0 <= i < |curve| ==>
                 curve[i] == EquityPoint(sorted[i].exitTime, Sum(Pnl, sorted[..i + 1]),
                                         sorted[i].tradeId, sorted[i].pnl))
      ensures forall i, j :: 0 <= i < j < |curve| ==> curve[i].timestamp <= curve[j].timestamp
      ensures |curve| > 0 ==> curve[|curve| - 1].equity == Sum(Pnl, trades)
    {
      var sorted := SortByKey(ExitKey, trades);
      var equity := 0.0;
      curve := [];
      var i := 0;
      while i < |sorted|
        invariant 0 <= i <= |sorted|
        invariant equity == Sum(Pnl, sorted[..i])
        invariant |curve| == i
        invariant forall k :: 0 <= k < i ==>
                    curve[k] == EquityPoint(sorted[k].exitTime, Sum(Pnl, sorted[..k + 1]),
                                            sorted[k].tradeId, sorted[k].pnl)
      {
        assert sorted[..i + 1][..i] == sorted[..i];
        equity := equity + sorted[i].pnl;
        curve := curve + [EquityPoint(sorted[i].exitTime, equity, sorted[i].tradeId, sorted[i].pnl)];
        i := i + 1;
      }
      CurveOrderAndTotal(trades, sorted, curve);
    }
  }

  /** The curve built over the exit-sorted trades is in time order and ends at the total P/L. */
  lemma CurveOrderAndTotal(trades: seq<TradeMetrics>, sorted: seq<TradeMetrics>, curve: seq<EquityPoint>)
    requires sorted == SortByKey(ExitKey, trades) && |curve| == |sorted|
    requires forall i :: 0 <= i < |curve| ==>
               curve[i] == EquityPoint(sorted[i].exitTime, Sum(Pnl, sorted[..i + 1]), sorted[i].tradeId, sorted[i].pnl)
    ensures forall i, j :: 0 <= i < j < |curve| ==> curve[i].timestamp <= curve[j].timestamp
    ensures |curve| > 0 ==> curve[|curve| - 1].equity == Sum(Pnl, trades)
  {
    SortByKeySorted(ExitKey, trades);
    forall i, j | 0 <= i < j < |curve| ensures curve[i].timestamp <= curve[j].timestamp {
      assert ExitKey(sorted[i]) <= ExitKey(sorted[j]);
    }
    if |curve| > 0 {
      assert sorted[..|sorted|] == sorted;
      SumPermutation(Pnl, sorted, trades);
    }
  }

  /** One point of the equity curve. */
  datatype EquityPoint = EquityPoint(timestamp: int, equity: real, tradeId: string, pnl: real)

  // ---------------------------------------------------------------- _max_consecutive

  /** Trades `i..j-1` all have result `r`. */
  predicate RunOf(s: seq<TradeMetrics>, r: TradeResult, i: int, j: int)
  {
    0 <= i <= j <= |s| && forall t :: i <= t < j ==> s[t].result == r
  }

  /** A run of `len` trades with result `r` starts at `i`. */
  predicate RunAt(s: seq<TradeMetrics>, r: TradeResult, i: int, len: nat)
  {
    RunOf(s, r, i, i + len)
  }

  /** The streak counters after a prefix: (longest streak so far, current streak). */
  function Streak(s: seq<TradeMetrics>, r: TradeResult): (nat, nat)
    decreases |s|
  {
    if s == [] then (0, 0)
    else
      var (best, cur) := Streak(s[..|s| - 1], r);
      if s[|s| - 1].result == r then (if best >= cur + 1 then best else cur + 1, cur + 1)
      else (best, 0)
  }

  /** `_max_consecutive` as a function of the trade list. */
  function MaxConsecutive(s: seq<TradeMetrics>, r: TradeResult): nat
  {
    Streak(s, r).0
  }

  /** A run ending before the last trade is a run of the list without it, and back. */
  lemma RunOfPrefix(s: seq<TradeMetrics>, r: TradeResult, i: int, j: int)
    requires |s| > 0 && j <= |s| - 1
    ensures RunOf(s, r, i, j) <==> RunOf(s[..|s| - 1], r, i, j)
  {
  }

  /** The current streak is the run of `r` ending the list, preceded by a different result. */
  lemma {:induction false} StreakCurrent(s: seq<TradeMetrics>, r: TradeResult)
    ensures var (best, cur) := Streak(s, r);
            cur <= best && RunOf(s, r, |s| - cur, |s|) && (cur < |s| ==> s[|s| - cur - 1].result != r)
    decreases |s|
  {
    if s != [] {
      var n := |s|;
      var s' := s[..n - 1];
      StreakCurrent(s', r);
      var (best, cur) := Streak(s', r);
      if s[n - 1].result == r {
        assert RunOf(s, r, n - cur - 1, n) by {
          forall t | n - cur - 1 <= t < n ensures s[t].result == r {
            if t < n - 1 { assert s[t] == s'[t]; }
          }
        }
        if cur + 1 < n {
          assert s[n - cur - 2] == s'[|s'| - cur - 1];
        }
      }
    }
  }

  /** Some run of `r` is as long as the best streak. */
  lemma {:induction false} StreakAttained(s: seq<TradeMetrics>, r: TradeResult)
    ensures exists i :: RunAt(s, r, i, Streak(s, r).0)
    decreases |s|
  {
    if s == [] {
      assert Streak(s, r).0 == 0;
      assert RunAt(s, r, 0, Streak(s, r).0);
    } else {
      var n := |s|;
      var s' := s[..n - 1];
      StreakAttained(s', r);
      StreakCurrent(s', r);
      var (best, cur) := Streak(s', r);
      var i0 :| RunAt(s', r, i0, best);
      RunOfPrefix(s, r, i0, i0 + best);
      assert RunAt(s, r, i0, best);
      assert s[..n - 1] == s';
      if s[n - 1].result == r && best < cur + 1 {
        assert Streak(s, r).0 == cur + 1;
        StreakCurrent(s, r);
        assert RunAt(s, r, n - (cur + 1), Streak(s, r).0);
      } else {
        assert Streak(s, r).0 == best;
        assert RunAt(s, r, i0, Streak(s, r).0);
      }
    }
  }

  /** No run of `r` is longer than the best streak. */
  lemma {:induction false} StreakMaximal(s: seq<TradeMetrics>, r: TradeResult)
    ensures forall i, j :: RunOf(s, r, i, j) ==> j - i <= Streak(s, r).0
    decreases |s|
  {
    if s != [] {
      var n := |s|;
      var s' := s[..n - 1];
      StreakMaximal(s', r);
      StreakCurrent(s', r);
      var (best, cur) := Streak(s', r);
      var best' := Streak(s, r).0;
      forall i, j | RunOf(s, r, i, j) ensures j - i <= best' {
        if j <= n - 1 {
          RunOfPrefix(s, r, i, j);
        } else if s[n - 1].result != r {
          assert i == n;
        }
      }
    }
  }

  /**
   * The current streak ends the list, and the best streak is the longest
   * run of `r`: some run has that length and none is longer.
   */
  lemma StreakSpec(s: seq<TradeMetrics>, r: TradeResult)
    ensures var (best, cur) := Streak(s, r);
            cur <= best && RunOf(s, r, |s| - cur, |s|) && (cur < |s| ==> s[|s| - cur - 1].result != r) &&
            (exists i :: RunAt(s, r, i, best)) &&
            (forall i, j :: RunOf(s, r, i, j) ==> j - i <= best)
  {
    StreakCurrent(s, r);
    StreakAttained(s, r);
    StreakMaximal(s, r);
  }

  /** The longest streak is at most the number of trades with that result. */
  lemma {:induction false} StreakAtMostCount(s: seq<TradeMetrics>, r: TradeResult)
    ensures Streak(s, r).1 <= Streak(s, r).0 <= Count((t: TradeMetrics) => t.result == r, s)
    decreases |s|
  {
    if s != [] {
      StreakAtMostCount(s[..|s| - 1], r);
      var (best, cur) := Streak(s[..|s| - 1], r);
      StreakCurrentAtMostCount(s[..|s| - 1], r);
    }
  }

  /** The current streak is at most the number of trades with that result. */
  lemma {:induction false} StreakCurrentAtMostCount(s: seq<TradeMetrics>, r: TradeResult)
    ensures Streak(s, r).1 <= Count((t: TradeMetrics) => t.result == r, s)
    decreases |s|
  {
    if s != [] {
      StreakCurrentAtMostCount(s[..|s| - 1], r);
    }
  }

  /** The loop of `_max_consecutive`. */
  method MaxConsecutiveLoop(trades: seq<TradeMetrics>, r: TradeResult) returns (maxStreak: nat)
    ensures maxStreak == MaxConsecutive(trades, r)
    ensures exists i :: RunAt(trades, r, i, maxStreak)
    ensures forall i, j :: RunOf(trades, r, i, j) ==> j - i <= maxStreak
  {
    maxStreak := 0;
    var currentStreak: nat := 0;
    var k := 0;
    while k < |trades|
      invariant 0 <= k <= |trades|
      invariant (maxStreak, currentStreak) == Streak(trades[..k], r)
    {
      assert trades[..k + 1][..k] == trades[..k];
      if trades[k].result == r {
        currentStreak := currentStreak + 1;
        maxStreak := if maxStreak >= currentStreak then maxStreak else currentStreak;
      } else {
        currentStreak := 0;
      }
      k := k + 1;
    }
    assert trades[..k] == trades;
    StreakSpec(trades, r);
  }

  // ---------------------------------------------------------------- _calculate_max_drawdown

  /** Equity after the first k trades, starting from 0. */
  function Equity(s: seq<TradeMetrics>, k: int): real
    requires 0 <= k <= |s|
  {
    Sum(Pnl, s[..k])
  }

  /** The accumulators of the drawdown loop: equity, running peak (from 0) and largest drop. */
  datatype DrawdownState = DrawdownState(equity: real, peak: real, maxDrawdown: real)

  function Drawdown(s: seq<TradeMetrics>): DrawdownState
    decreases |s|
  {
    if s == [] then DrawdownState(0.0, 0.0, 0.0)
    else
      var d := Drawdown(s[..|s| - 1]);
      var equity := d.equity + s[|s| - 1].pnl;
      var peak := Max(d.peak, equity);
      DrawdownState(equity, peak, Max(d.maxDrawdown, peak - equity))
  }

  function MaxDrawdown(s: seq<TradeMetrics>): real
  {
    Drawdown(s).maxDrawdown
  }

  lemma EquityPrefix(s: seq<TradeMetrics>, k: int)
    requires |s| > 0 && 0 <= k <= |s| - 1
    ensures Equity(s, k) == Equity(s[..|s| - 1], k)
  {
    assert s[..|s| - 1][..k] == s[..k];
  }

  lemma EquityStep(s: seq<TradeMetrics>)
    requires |s| > 0
    ensures Equity(s, |s|) == Equity(s[..|s| - 1], |s| - 1) + s[|s| - 1].pnl
  {
    assert s[..|s|][..|s| - 1] == s[..|s| - 1];
    assert s[..|s| - 1][..|s| - 1] == s[..|s| - 1];
  }

  /** Dropping the last trade leaves the earlier equities unchanged. */
  lemma EquityPrefixAll(s: seq<TradeMetrics>)
    requires |s| > 0
    ensures forall i :: 0 <= i <= |s| - 1 ==> Equity(s, i) == Equity(s[..|s| - 1], i)
    ensures Equity(s, |s|) == Equity(s[..|s| - 1], |s| - 1) + s[|s| - 1].pnl
  {
    forall i | 0 <= i <= |s| - 1 ensures Equity(s, i) == Equity(s[..|s| - 1], i) {
      EquityPrefix(s, i);
    }
    EquityStep(s);
  }

  /** The loop's equity is the total P/L and its peak is the highest equity reached, counting the starting 0. */
  lemma {:induction false} DrawdownPeak(s: seq<TradeMetrics>)
    ensures var d := Drawdown(s);
            d.equity == Equity(s, |s|) &&
            (forall i :: 0 <= i <= |s| ==> Equity(s, i) <= d.peak) &&
            (exists i :: 0 <= i <= |s| && d.peak == Equity(s, i))
    decreases |s|
  {
    var n := |s|;
    if n == 0 {
      assert Equity(s, 0) == 0.0;
    } else {
      var s' := s[..n - 1];
      DrawdownPeak(s');
      EquityPrefixAll(s);
      var d, d' := Drawdown(s'), Drawdown(s);
      forall i | 0 <= i <= n ensures Equity(s, i) <= d'.peak {
        if i < n {
          assert Equity(s', i) <= d.peak;
        }
      }
      var p :| 0 <= p <= n - 1 && d.peak == Equity(s', p);
      if d'.peak == d.peak {
        assert d'.peak == Equity(s, p);
      } else {
        assert d'.peak == Equity(s, n);
      }
    }
  }

  /** Every fall from an earlier (or the starting) equity to a later one is at most the maximum drawdown. */
  lemma {:induction false} DrawdownBound(s: seq<TradeMetrics>)
    ensures forall i, j :: 0 <= i <= j <= |s| ==> Equity(s, i) - Equity(s, j) <= Drawdown(s).maxDrawdown
    decreases |s|
  {
    var n := |s|;
    if n == 0 {
      forall i, j | 0 <= i <= j <= 0 ensures Equity(s, i) - Equity(s, j) <= 0.0 {
        assert i == j;
      }
    } else {
      var s' := s[..n - 1];
      DrawdownBound(s');
      DrawdownPeak(s);
      EquityPrefixAll(s);
      var d, d' := Drawdown(s'), Drawdown(s);
      forall i, j | 0 <= i <= j <= n ensures Equity(s, i) - Equity(s, j) <= d'.maxDrawdown {
        if j < n {
          assert Equity(s', i) - Equity(s', j) <= d.maxDrawdown;
        } else {
          assert Equity(s, i) <= d'.peak;
        }
      }
    }
  }

  /** Some fall equals the maximum drawdown. */
  lemma {:induction false} DrawdownAttained(s: seq<TradeMetrics>)
    ensures exists i, j :: 0 <= i <= j <= |s| && Drawdown(s).maxDrawdown == Equity(s, i) - Equity(s, j)
    decreases |s|
  {
    var n := |s|;
    if n == 0 {
      assert Equity(s, 0) - Equity(s, 0) == 0.0;
    } else {
      var s' := s[..n - 1];
      DrawdownAttained(s');
      DrawdownPeak(s);
      EquityPrefixAll(s);
      var d, d' := Drawdown(s'), Drawdown(s);
      var a, b :| 0 <= a <= b <= n - 1 && d.maxDrawdown == Equity(s', a) - Equity(s', b);
      if d'.maxDrawdown == d.maxDrawdown {
        assert d'.maxDrawdown == Equity(s, a) - Equity(s, b);
      } else {
        var pk :| 0 <= pk <= n && d'.peak == Equity(s, pk);
        assert d'.maxDrawdown == d'.peak - d'.equity;
        if pk == n {
          assert false;
        }
        assert d'.maxDrawdown == Equity(s, pk) - Equity(s, n);
      }
    }
  }

  /**
   * The loop's equity is the total P/L; its peak is the highest equity
   * reached, counting the starting 0; and the maximum drawdown is the
   * largest fall from an earlier (or the starting) equity to a later one:
   * every fall is at most it and one fall equals it.
   */
  lemma DrawdownSpec(s: seq<TradeMetrics>)
    ensures var d := Drawdown(s);
            d.equity == Equity(s, |s|) &&
            (forall i :: 0 <= i <= |s| ==> Equity(s, i) <= d.peak) &&
            (exists i :: 0 <= i <= |s| && d.peak == Equity(s, i)) &&
            (forall i, j :: 0 <= i <= j <= |s| ==> Equity(s, i) - Equity(s, j) <= d.maxDrawdown) &&
            (exists i, j :: 0 <= i <= j <= |s| && d.maxDrawdown == Equity(s, i) - Equity(s, j))
  {
    DrawdownPeak(s);
    DrawdownBound(s);
    DrawdownAttained(s);
  }

  /** The drawdown is never negative, and initial losses count from the zero starting peak. */
  lemma DrawdownFromZero(s: seq<TradeMetrics>, j: int)
    requires 0 <= j <= |s|
    ensures MaxDrawdown(s) >= 0.0
    ensures MaxDrawdown(s) >= -Equity(s, j)
  {
    DrawdownSpec(s);
    assert Equity(s, 0) == 0.0;
    assert Equity(s, 0) - Equity(s, 0) <= MaxDrawdown(s);
    assert Equity(s, 0) - Equity(s, j) <= MaxDrawdown(s);
  }

  /** The loop of `_calculate_max_drawdown`. */
  method MaxDrawdownLoop(trades: seq<TradeMetrics>) returns (maxDd: real)
    ensures maxDd == MaxDrawdown(trades)
    ensures maxDd >= 0.0
    ensures forall i, j :: 0 <= i <= j <= |trades| ==> Equity(trades, i) - Equity(trades, j) <= maxDd
  {
    if |trades| == 0 {
      return 0.0;
    }
    var equity, peak := 0.0, 0.0;
    maxDd := 0.0;
    var k := 0;
    while k < |trades|
      invariant 0 <= k <= |trades|
      invariant DrawdownState(equity, peak, maxDd) == Drawdown(trades[..k])
    {
      assert trades[..k + 1][..k] == trades[..k];
      equity := equity + trades[k].pnl;
      peak := Max(peak, equity);
      var drawdown := peak - equity;
      maxDd := Max(maxDd, drawdown);
      k := k + 1;
    }
    assert trades[..k] == trades;
    DrawdownSpec(trades);
    DrawdownFromZero(trades, 0);
  }

  // ---------------------------------------------------------------- calculate_stats

  /** A ratio that is `inf` when the denominator is 0 and the numerator positive. */
  datatype Factor = Finite(value: real) | Infinite

  /** `PeriodStats` minus the period label and the Sharpe ratio; dates as seconds. */
  datatype PeriodStats = PeriodStats(
    startDate: int, endDate: int, totalTrades: nat, wins: nat, losses: nat, breakeven: nat,
    totalPnl: real, grossProfit: real, grossLoss: real, winRate: real, profitFactor: Factor,
    averageWin: real, averageLoss: real, largestWin: real, largestLoss: real,
    averageRr: real, averageBarsHeld: real, maxConsecutiveWins: nat, maxConsecutiveLosses: nat,
    maxDrawdown: real, recoveryFactor: Factor)

  /** `statistics.mean`, or 0 for an empty list. */
  function Mean(f: TradeMetrics -> real, s: seq<TradeMetrics>): real
  {
    if s == [] then 0.0 else Sum(f, s) / |s| as real
  }

  function Largest(s: seq<TradeMetrics>): (m: real)
    requires |s| > 0
    ensures forall k :: 0 <= k < |s| ==> s[k].pnl <= m
    ensures exists k :: 0 <= k < |s| && s[k].pnl == m
    decreases |s|
  {
    if |s| == 1 then s[0].pnl
    else
      var rest := Largest(s[..|s| - 1]);
      assert forall k :: 0 <= k < |s| - 1 ==> s[..|s| - 1][k] == s[k];
      Max(rest, s[|s| - 1].pnl)
  }

  function Smallest(s: seq<TradeMetrics>): (m: real)
    requires |s| > 0
    ensures forall k :: 0 <= k < |s| ==> m <= s[k].pnl
    ensures exists k :: 0 <= k < |s| && s[k].pnl == m
    decreases |s|
  {
    if |s| == 1 then s[0].pnl
    else
      var rest := Smallest(s[..|s| - 1]);
      assert forall k :: 0 <= k < |s| - 1 ==> s[..|s| - 1][k] == s[k];
      Min(rest, s[|s| - 1].pnl)
  }

  /** Wins over decided trades, or 0 when none was decided. */
  function WinRate(w: nat, l: nat): (r: real)
    ensures 0.0 <= r <= 1.0
    ensures w + l == 0 ==> r == 0.0
  {
    if w + l > 0 then w as real / (w + l) as real else 0.0
  }

  /** The win rate is the fraction of decided trades that were wins: breakevens count on neither side. */
  lemma WinRateSpec(w: nat, l: nat, r: real)
    requires r == WinRate(w, l)
    ensures w + l > 0 ==> r * (w + l) as real == w as real
  {
    if w + l > 0 {
      DivIff(r, w as real, (w + l) as real);
    }
  }

  /** The statistics of an empty list: zeros, with both dates `now`. */
  function EmptyStats(now: int): PeriodStats
  {
    PeriodStats(now, now, 0, 0, 0, 0, 0.0, 0.0, 0.0, 0.0, Finite(0.0), 0.0, 0.0, 0.0, 0.0, 0.0, 0.0,
                0, 0, 0.0, Finite(0.0))
  }

  /** `calculate_stats` over the trades sorted (stably) by entry time. */
  function CalculateStats(trades: seq<TradeMetrics>, now: int): PeriodStats
  {
    if trades == [] then EmptyStats(now)
    else
      var s := SortByKey(EntryKey, trades);
      var wins, losses, breakeven := Filter(IsWin, s), Filter(IsLoss, s), Filter(IsBreakeven, s);
      var totalPnl := Sum(Pnl, s);
      var grossProfit := if wins != [] then Sum(Pnl, wins) else 0.0;
      var grossLoss := if losses != [] then Abs(Sum(Pnl, losses)) else 0.0;
      var maxDd := MaxDrawdown(s);
      PeriodStats(
        s[0].entryTime, s[|s| - 1].exitTime, |s|, |wins|, |losses|, |breakeven|,
        totalPnl, grossProfit, grossLoss,
        WinRate(|wins|, |losses|),
        if grossLoss > 0.0 then Finite(grossProfit / grossLoss)
        else if grossProfit > 0.0 then Infinite else Finite(0.0),
        Mean(Pnl, wins), Mean(AbsPnl, losses),
        if wins != [] then Largest(wins) else 0.0,
        if losses != [] then Smallest(losses) else 0.0,
        Mean(RrActual, s), Mean(BarsHeld, s),
        MaxConsecutive(s, Win), MaxConsecutive(s, Loss),
        maxDd,
        if maxDd > 0.0 then Finite(totalPnl / maxDd) else if totalPnl > 0.0 then Infinite else Finite(0.0))
  }

  /** Every trade is a win, a loss or a breakeven. */
  lemma {:induction false} ThreeWayCount(s: seq<TradeMetrics>)
    ensures |Filter(IsWin, s)| + |Filter(IsLoss, s)| + |Filter(IsBreakeven, s)| == |s|
    decreases |s|
  {
    if s != [] {
      ThreeWayCount(s[..|s| - 1]);
    }
  }

  /** The total P/L splits into the wins', the losses' and the breakevens' P/L. */
  lemma {:induction false} ThreeWaySum(s: seq<TradeMetrics>)
    ensures Sum(Pnl, Filter(IsWin, s)) + Sum(Pnl, Filter(IsLoss, s)) + Sum(Pnl, Filter(IsBreakeven, s))
              == Sum(Pnl, s)
    decreases |s|
  {
    if s != [] {
      var s' := s[..|s| - 1];
      ThreeWaySum(s');
      var x := s[|s| - 1];
      var w, l, b := Filter(IsWin, s'), Filter(IsLoss, s'), Filter(IsBreakeven, s');
      assert Sum(Pnl, [x]) == x.pnl by { assert [x][..0] == []; }
      if x.result == Win {
        assert Filter(IsWin, s) == w + [x];
        assert Filter(IsLoss, s) == l && Filter(IsBreakeven, s) == b;
        SumConcat(Pnl, w, [x]);
      } else if x.result == Loss {
        assert Filter(IsLoss, s) == l + [x];
        assert Filter(IsWin, s) == w && Filter(IsBreakeven, s) == b;
        SumConcat(Pnl, l, [x]);
      } else {
        assert Filter(IsBreakeven, s) == b + [x];
        assert Filter(IsWin, s) == w && Filter(IsLoss, s) == l;
        SumConcat(Pnl, b, [x]);
      }
    }
  }

  /** Wins, losses and breakevens add up to the number of trades. */
  lemma StatsCounts(trades: seq<TradeMetrics>, now: int)
    requires trades != []
    ensures var st := CalculateStats(trades, now);
            st.totalTrades == |trades| && st.wins + st.losses + st.breakeven == st.totalTrades
  {
    ThreeWayCount(SortByKey(EntryKey, trades));
  }

  /**
   * The total P/L is the sum over all trades, whatever their order, and
   * splits into the wins', the losses' and the breakevens' P/L.
   */
  lemma StatsPnl(trades: seq<TradeMetrics>, now: int)
    requires trades != []
    ensures var st := CalculateStats(trades, now);
            var s := SortByKey(EntryKey, trades);
            st.totalPnl == Sum(Pnl, trades) &&
            st.totalPnl == Sum(Pnl, Filter(IsWin, s)) + Sum(Pnl, Filter(IsLoss, s))
                           + Sum(Pnl, Filter(IsBreakeven, s))
  {
    var s := SortByKey(EntryKey, trades);
    ThreeWaySum(s);
    SumPermutation(Pnl, s, trades);
  }

  /** Streaks never exceed their group's size, and the drawdown is never negative. */
  lemma StatsStreaksAndDrawdown(trades: seq<TradeMetrics>, now: int)
    requires trades != []
    ensures var st := CalculateStats(trades, now);
            st.maxConsecutiveWins <= st.wins && st.maxConsecutiveLosses <= st.losses &&
            st.maxDrawdown >= 0.0
  {
    var s := SortByKey(EntryKey, trades);
    StreakAtMostCount(s, Win);
    StreakAtMostCount(s, Loss);
    CountIsFilterLength((t: TradeMetrics) => t.result == Win, s);
    CountIsFilterLength((t: TradeMetrics) => t.result == Loss, s);
    CountFilterSame(s);
    DrawdownFromZero(s, 0);
  }

  /** The period starts at the earliest entry time. */
  lemma StatsStart(trades: seq<TradeMetrics>, now: int)
    requires trades != []
    ensures var st := CalculateStats(trades, now);
            (forall k :: 0 <= k < |trades| ==> st.startDate <= trades[k].entryTime) &&
            exists k :: 0 <= k < |trades| && st.startDate == trades[k].entryTime
  {
    var s := SortByKey(EntryKey, trades);
    SortByKeySorted(EntryKey, trades);
    assert s[0] in multiset(trades);
    forall k | 0 <= k < |trades| ensures s[0].entryTime <= trades[k].entryTime {
      assert trades[k] in multiset(s);
      var j :| 0 <= j < |s| && s[j] == trades[k];
      if j > 0 {
        assert EntryKey(s[0]) <= EntryKey(s[j]);
      }
    }
  }

  /** The two spellings of "has result r" give the same filters. */
  lemma {:induction false} CountFilterSame(s: seq<TradeMetrics>)
    ensures Filter((t: TradeMetrics) => t.result == Win, s) == Filter(IsWin, s)
    ensures Filter((t: TradeMetrics) => t.result == Loss, s) == Filter(IsLoss, s)
    decreases |s|
  {
    if s != [] {
      CountFilterSame(s[..|s| - 1]);
    }
  }

  // ---------------------------------------------------------------- get_expectancy

  /** `get_expectancy` over the journal's statistics. */
  function Expectancy(trades: seq<TradeMetrics>, now: int): real
  {
    ExpectancyOf(CalculateStats(trades, now))
  }

  /** The expectancy formula on a statistics record. */
  function ExpectancyOf(st: PeriodStats): real
  {
    if st.totalTrades == 0 then 0.0
    else
      var lossRate := 1.0 - st.winRate;
      st.winRate * st.averageWin - lossRate * st.averageLoss
  }

  /** The formula on statistics whose rate and averages come from w wins summing to sw and l losses summing to sl. */
  lemma ExpectancyOfCounts(st: PeriodStats, w: nat, l: nat, sw: real, sl: real)
    requires st.totalTrades > 0 && st.winRate == WinRate(w, l)
    requires (w == 0 ==> sw == 0.0) && (l == 0 ==> sl == 0.0)
    requires st.averageWin == (if w > 0 then sw / w as real else 0.0)
    requires st.averageLoss == (if l > 0 then sl / l as real else 0.0)
    ensures ExpectancyOf(st) == if w + l == 0 then 0.0 else (sw - sl) / (w + l) as real
  {
    if w + l > 0 {
      ExpectancyAlgebra(w, l, sw, sl);
    }
  }

  /** The formula on statistics whose rate and averages come from the given wins and losses. */
  lemma ExpectancyOfMeans(st: PeriodStats, wins: seq<TradeMetrics>, losses: seq<TradeMetrics>)
    requires st.totalTrades > 0 && st.winRate == WinRate(|wins|, |losses|)
    requires st.averageWin == Mean(Pnl, wins) && st.averageLoss == Mean(AbsPnl, losses)
    ensures ExpectancyOf(st) == if |wins| + |losses| == 0 then 0.0
              else (Sum(Pnl, wins) - Sum(AbsPnl, losses)) / (|wins| + |losses|) as real
  {
    ExpectancyOfCounts(st, |wins|, |losses|, Sum(Pnl, wins), Sum(AbsPnl, losses));
  }

  /** The statistics' rate and averages as computed from the sorted journal's wins and losses. */
  lemma StatsMeans(trades: seq<TradeMetrics>, now: int, st: PeriodStats)
    requires trades != [] && st == CalculateStats(trades, now)
    ensures var s := SortByKey(EntryKey, trades);
            st.totalTrades > 0 && st.winRate == WinRate(|Filter(IsWin, s)|, |Filter(IsLoss, s)|) &&
            st.averageWin == Mean(Pnl, Filter(IsWin, s)) && st.averageLoss == Mean(AbsPnl, Filter(IsLoss, s)) &&
            st.wins == |Filter(IsWin, s)| && st.losses == |Filter(IsLoss, s)| &&
            st.grossProfit == (if Filter(IsWin, s) != [] then Sum(Pnl, Filter(IsWin, s)) else 0.0)
  {
  }

  /**
   * The averages and the win rate give back the group totals: the average
   * win times the number of wins is the gross profit, the average loss times
   * the number of losses is the losers' absolute P/L, and the win rate times
   * the decided trades is the number of wins; an empty group averages 0.
   */
  lemma StatsAverages(trades: seq<TradeMetrics>, now: int, st: PeriodStats)
    requires trades != [] && st == CalculateStats(trades, now)
    ensures st.averageWin * st.wins as real == st.grossProfit
    ensures st.averageLoss * st.losses as real == Sum(AbsPnl, Filter(IsLoss, SortByKey(EntryKey, trades)))
    ensures st.winRate * (st.wins + st.losses) as real == st.wins as real
    ensures st.wins == 0 ==> st.averageWin == 0.0
    ensures st.losses == 0 ==> st.averageLoss == 0.0
  {
    var s := SortByKey(EntryKey, trades);
    var wins, losses := Filter(IsWin, s), Filter(IsLoss, s);
    StatsMeans(trades, now, st);
    WinAverage(st, wins);
    LossAverage(st, losses);
    RateOfDecided(st, |wins|, |losses|);
  }

  lemma WinAverage(st: PeriodStats, wins: seq<TradeMetrics>)
    requires st.wins == |wins| && st.averageWin == Mean(Pnl, wins)
    requires st.grossProfit == (if wins != [] then Sum(Pnl, wins) else 0.0)
    ensures st.averageWin * st.wins as real == st.grossProfit
    ensures st.wins == 0 ==> st.averageWin == 0.0
  {
    MeanTimesCount(Pnl, wins);
  }

  lemma LossAverage(st: PeriodStats, losses: seq<TradeMetrics>)
    requires st.losses == |losses| && st.averageLoss == Mean(AbsPnl, losses)
    ensures st.averageLoss * st.losses as real == Sum(AbsPnl, losses)
    ensures st.losses == 0 ==> st.averageLoss == 0.0
  {
    MeanTimesCount(AbsPnl, losses);
  }

  lemma RateOfDecided(st: PeriodStats, w: nat, l: nat)
    requires st.wins == w && st.losses == l && st.winRate == WinRate(w, l)
    ensures st.winRate * (st.wins + st.losses) as real == st.wins as real
  {
    WinRateTimesDecided(w, l);
  }

  /** A mean times the count is the sum; an empty list means 0. */
  lemma MeanTimesCount(f: TradeMetrics -> real, s: seq<TradeMetrics>)
    ensures Mean(f, s) * |s| as real == Sum(f, s)
    ensures s == [] ==> Mean(f, s) == 0.0
  {
    if s != [] {
      DivIff(Mean(f, s), Sum(f, s), |s| as real);
    }
  }

  /** The win rate times the decided trades is the number of wins. */
  lemma WinRateTimesDecided(w: nat, l: nat)
    ensures WinRate(w, l) * (w + l) as real == w as real
  {
    if w + l > 0 {
      DivIff(WinRate(w, l), w as real, (w + l) as real);
    }
  }

  lemma ExpectancyAlgebra(w: nat, l: nat, sw: real, sl: real)
    requires w + l > 0 && (w == 0 ==> sw == 0.0) && (l == 0 ==> sl == 0.0)
    ensures var avgW := if w > 0 then sw / w as real else 0.0;
            var avgL := if l > 0 then sl / l as real else 0.0;
            WinRate(w, l) * avgW - (1.0 - WinRate(w, l)) * avgL == (sw - sl) / (w + l) as real
  {
    var c := (w + l) as real;
    var rate := WinRate(w, l);
    assert rate == w as real / c;
    var avgW := if w > 0 then sw / w as real else 0.0;
    var avgL := if l > 0 then sl / l as real else 0.0;
    var x := if w > 0 then sw / c else 0.0;
    var y := if l > 0 then sl / c else 0.0;
    if w > 0 {
      Cancel(w as real, c, sw);
    }
    OneMinus(w as real, l as real, c);
    if l > 0 {
      Cancel(l as real, c, sl);
    }
    assert rate * avgW == x;
    assert (1.0 - rate) * avgL == y;
    DivSub(sw, sl, c);
  }

  /** x is a/c exactly when x times c is a. */
  lemma DivIff(x: real, a: real, c: real)
    requires c > 0.0
    ensures x == a / c <==> x * c == a
  {
  }

  /** 1 - w/c is l/c when w + l = c. */
  lemma OneMinus(w: real, l: real, c: real)
    requires c > 0.0 && w + l == c
    ensures 1.0 - w / c == l / c
  {
    DivIff(1.0 - w / c, l, c);
    assert (w / c) * c == w;
  }

  /** Division by a positive number distributes over a difference. */
  lemma DivSub(a: real, b: real, c: real)
    requires c > 0.0
    ensures (a - b) / c == a / c - b / c
  {
    DivIff(a / c - b / c, a - b, c);
    assert (a / c) * c == a;
    assert (b / c) * c == b;
  }

  /** (b/c) * (a/b) == a/c for positive b and c. */
  lemma Cancel(b: real, c: real, a: real)
    requires b > 0.0 && c > 0.0
    ensures (b / c) * (a / b) == a / c
  {
    var u, v := b / c, a / b;
    assert u * c == b;
    assert v * b == a;
    assert (u * v) * c == (u * c) * v;
  }

  /**
   * The expectancy is the average result of a decided trade: the winners'
   * P/L less the losers' absolute P/L, over the number of wins and losses;
   * breakevens are left out, and it is 0 when no trade was decided.
   */
  lemma ExpectancySpec(trades: seq<TradeMetrics>, now: int, wins: seq<TradeMetrics>, losses: seq<TradeMetrics>)
    requires wins == Filter(IsWin, SortByKey(EntryKey, trades))
    requires losses == Filter(IsLoss, SortByKey(EntryKey, trades))
    ensures Expectancy(trades, now) ==
              if |wins| + |losses| == 0 then 0.0
              else (Sum(Pnl, wins) - Sum(AbsPnl, losses)) / (|wins| + |losses|) as real
  {
    if trades != [] {
      var st := CalculateStats(trades, now);
      StatsMeans(trades, now, st);
      ExpectancyOfMeans(st, wins, losses);
    } else {
      assert SortByKey(EntryKey, trades) == [];
      assert wins == [] && losses == [];
    }
  }
}
