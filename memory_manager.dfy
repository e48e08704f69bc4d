/**
 * The trade journal of src/memory_manager.py: stored trades, the filtered
 * "most recent first" query, the by-id lookup, the win/loss statistics and
 * the trade windows that make up the memory context handed to the model.
 * Persistence and timestamps are outside the model; the current time is a
 * parameter where the source reads the clock.
 */
module MemoryManager {
  import opened Common

  /**
   * A stored trade, reduced to the nested fields the journal reads
   * (`trade_id`, `setup.type`, `setup.direction`, `outcome.result`,
   * `decision.confidence`, `outcome.profit_loss`,
   * `outcome.risk_reward_achieved`); an absent field is None.
   */
  datatype StoredTrade = StoredTrade(
    tradeId: Option<string>, setupType: Option<string>, direction: Option<string>, result: Option<string>,
    confidence: Option<real>, profitLoss: Option<real>, riskRewardAchieved: Option<real>)

  /** The filter keys `query_trades` understands; an absent key is None. */
  datatype TradeFilters = TradeFilters(
    setupType: Option<string>, direction: Option<string>, result: Option<string>, minConfidence: Option<real>)

  /** `decision.confidence`, 0 when absent. */
  function ConfidenceOf(t: StoredTrade): real
  {
    if t.confidence.Some? then t.confidence.value else 0.0
  }

  /** A trade passes every filter that is present. */
  predicate Matches(f: TradeFilters, t: StoredTrade)
  {
    (f.setupType.Some? ==> t.setupType == f.setupType) &&
    (f.direction.Some? ==> t.direction == f.direction) &&
    (f.result.Some? ==> t.result == f.result) &&
    (f.minConfidence.Some? ==> ConfidenceOf(t) >= f.minConfidence.value)
  }

  /** The filter as a predicate value. */
  function Matcher(f: TradeFilters): StoredTrade -> bool
  {
    t => Matches(f, t)
  }

  /** The matching trades of `s`, newest (last) first. */
  function RecentMatches(f: TradeFilters, s: seq<StoredTrade>): seq<StoredTrade>
    decreases |s|
  {
    if s == [] then [] else RecentMatches(f, s[1..]) + (if Matches(f, s[0]) then [s[0]] else [])
  }

  /** `s` in reverse order. */
  function Reverse<T>(s: seq<T>): (r: seq<T>)
    ensures |r| == |s|
    decreases |s|
  {
    if s == [] then [] else Reverse(s[1..]) + [s[0]]
  }

  /** The loop stops once it holds `limit` trades, but only after appending: a limit below 1 still yields one trade. */
  function Bound(limit: int): nat
  {
    if limit >= 1 then limit else 1
  }

  /** What `query_trades` returns: the first `Bound(limit)` matches, newest first. */
  function QueryResult(f: TradeFilters, history: seq<StoredTrade>, limit: int): seq<StoredTrade>
  {
    var m := RecentMatches(f, history);
    if |m| <= Bound(limit) then m else m[..Bound(limit)]
  }

  /** The newest-first matches of a concatenation: those of the later part, then those of the earlier part. */
  lemma {:induction false} RecentMatchesConcat(f: TradeFilters, a: seq<StoredTrade>, b: seq<StoredTrade>)
    ensures RecentMatches(f, a + b) == RecentMatches(f, b) + RecentMatches(f, a)
    decreases |a|
  {
    if a == [] {
      assert a + b == b;
    } else {
      assert (a + b)[1..] == a[1..] + b;
      RecentMatchesConcat(f, a[1..], b);
    }
  }

  /** The newest-first matches are exactly the filter of the reversed history. */
  lemma {:induction false} RecentMatchesIsFilterOfReverse(f: TradeFilters, s: seq<StoredTrade>)
    ensures RecentMatches(f, s) == Filter(Matcher(f), Reverse(s))
    decreases |s|
  {
    if s != [] {
      RecentMatchesIsFilterOfReverse(f, s[1..]);
      FilterConcat(Matcher(f), Reverse(s[1..]), [s[0]]);
      assert Filter(Matcher(f), [s[0]]) == if Matches(f, s[0]) then [s[0]] else [] by {
        assert [s[0]][..0] == [];
      }
    }
  }

  /** Reversal keeps every element. */
  lemma {:induction false} ReverseElements<T>(s: seq<T>)
    ensures multiset(Reverse(s)) == multiset(s)
    decreases |s|
  {
    if s != [] {
      ReverseElements(s[1..]);
      assert s == [s[0]] + s[1..];
    }
  }

  /**
   * The query result holds at most `Bound(limit)` trades, each passing the
   * filters and taken from the history; it is a prefix of the filtered
   * reversed history (newest first, order kept); and when it is shorter
   * than the bound it holds every matching trade.
   */
  lemma QueryResultSpec(f: TradeFilters, history: seq<StoredTrade>, limit: int)
    ensures var r := QueryResult(f, history, limit);
            var all := Filter(Matcher(f), Reverse(history));
            |r| <= Bound(limit) &&
            |r| == (if |all| <= Bound(limit) then |all| else Bound(limit)) &&
            r == all[..|r|] &&
            (forall i :: 0 <= i < |r| ==> Matches(f, r[i]) && r[i] in history) &&
            (|r| < Bound(limit) ==> forall i :: 0 <= i < |history| && Matches(f, history[i]) ==> history[i] in r)
  {
    var r := QueryResult(f, history, limit);
    var all := Filter(Matcher(f), Reverse(history));
    RecentMatchesIsFilterOfReverse(f, history);
    ReverseElements(history);
    forall i | 0 <= i < |r| ensures Matches(f, r[i]) && r[i] in history {
      assert r[i] == all[i];
      assert Matcher(f)(all[i]);
      assert all[i] in multiset(Reverse(history));
    }
    if |r| < Bound(limit) {
      forall i | 0 <= i < |history| && Matches(f, history[i]) ensures history[i] in r {
        assert history[i] in multiset(Reverse(history));
        var j :| 0 <= j < |Reverse(history)| && Reverse(history)[j] == history[i];
        assert Matcher(f)(Reverse(history)[j]);
      }
    }
  }

  /** Trades with an unknown result, or none, still count in the total. */
  predicate IsWinResult(t: StoredTrade) { t.result == Some("WIN") }
  predicate IsLossResult(t: StoredTrade) { t.result == Some("LOSS") }
  predicate IsBreakevenResult(t: StoredTrade) { t.result == Some("BREAKEVEN") }
  predicate IsOtherResult(t: StoredTrade) { !IsWinResult(t) && !IsLossResult(t) && !IsBreakevenResult(t) }

  /** `outcome.profit_loss`, 0 when absent. */
  function PnlOf(t: StoredTrade): real
  {
    if t.profitLoss.Some? then t.profitLoss.value else 0.0
  }

  /** `outcome.risk_reward_achieved`, 0 when absent. */
  function RrOf(t: StoredTrade): real
  {
    if t.riskRewardAchieved.Some? then t.riskRewardAchieved.value else 0.0
  }

  datatype JournalStats = JournalStats(
    totalTrades: nat, wins: nat, losses: nat, breakeven: nat,
    winRate: real, avgRr: real, totalPnl: real, avgPnl: real)

  /** `a / b`, or 0 when `b` is 0. */
  function Ratio(a: real, b: nat): real
  {
    if b > 0 then a / b as real else 0.0
  }

  /** `calculate_stats` as a function of the trade list. */
  function Stats(trades: seq<StoredTrade>): JournalStats
  {
    if trades == [] then JournalStats(0, 0, 0, 0, 0.0, 0.0, 0.0, 0.0)
    else
      var w, l := Count(IsWinResult, trades), Count(IsLossResult, trades);
      var pnl := Sum(PnlOf, trades);
      JournalStats(|trades|, w, l, Count(IsBreakevenResult, trades),
                   Ratio(w as real, w + l), Ratio(Sum(RrOf, trades), |trades|), pnl, Ratio(pnl, |trades|))
  }

  /** Every trade falls in exactly one of win, loss, breakeven and other. */
  lemma {:induction false} FourWayCount(s: seq<StoredTrade>)
    ensures Count(IsWinResult, s) + Count(IsLossResult, s) + Count(IsBreakevenResult, s) + Count(IsOtherResult, s) == |s|
    decreases |s|
  {
    if s != [] {
      FourWayCount(s[..|s| - 1]);
    }
  }

  /** x == a / b exactly when x * b == a. */
  lemma RatioIff(x: real, a: real, b: nat)
    requires b > 0
    ensures x == Ratio(a, b) <==> x * b as real == a
  {
  }

  /**
   * No trades gives all zeros. Otherwise the total counts every trade,
   * wins, losses and breakevens count theirs and the rest are counted in
   * the total only, and the P/L sums every trade, absent values as 0.
   */
  lemma StatsCounts(trades: seq<StoredTrade>)
    ensures var st := Stats(trades);
            (trades == [] ==> st == JournalStats(0, 0, 0, 0, 0.0, 0.0, 0.0, 0.0)) &&
            st.totalTrades == |trades| &&
            st.wins + st.losses + st.breakeven + Count(IsOtherResult, trades) == st.totalTrades &&
            st.totalPnl == Sum(PnlOf, trades)
  {
    FourWayCount(trades);
  }

  /** The three ratios of a statistics record: the win rate over decided trades, the averages over all. */
  lemma RatioFacts(st: JournalStats, n: nat, pnl: real, rr: real)
    requires st.winRate == Ratio(st.wins as real, st.wins + st.losses)
    requires st.avgPnl == Ratio(pnl, n) && st.avgRr == Ratio(rr, n)
    ensures st.wins + st.losses > 0 ==> st.winRate * (st.wins + st.losses) as real == st.wins as real
    ensures st.wins + st.losses == 0 ==> st.winRate == 0.0
    ensures n > 0 ==> st.avgPnl * n as real == pnl && st.avgRr * n as real == rr
  {
    if n > 0 {
      RatioIff(st.avgPnl, pnl, n);
      RatioIff(st.avgRr, rr, n);
    }
    if st.wins + st.losses > 0 {
      RatioIff(st.winRate, st.wins as real, st.wins + st.losses);
    }
  }

  /**
   * The win rate is wins over wins plus losses, leaving breakevens and
   * unknown results out, and 0 when there are none; the average P/L and
   * R:R divide by the number of trades.
   */
  lemma StatsRatios(trades: seq<StoredTrade>, st: JournalStats)
    requires trades != [] && st == Stats(trades)
    ensures st.wins + st.losses > 0 ==> st.winRate * (st.wins + st.losses) as real == st.wins as real
    ensures st.wins + st.losses == 0 ==> st.winRate == 0.0
    ensures st.avgPnl * st.totalTrades as real == st.totalPnl
    ensures st.avgRr * st.totalTrades as real == Sum(RrOf, trades)
  {
    RatioFacts(st, st.totalTrades, st.totalPnl, Sum(RrOf, trades));
  }

  /** The win rate lies in [0, 1]. */
  lemma WinRateBounded(trades: seq<StoredTrade>, st: JournalStats)
    requires st == Stats(trades)
    ensures 0.0 <= st.winRate <= 1.0
  {
    if trades != [] {
      FractionBounds(st.wins, st.losses);
    }
  }

  /** wins / (wins + losses) lies in [0, 1]. */
  lemma FractionBounds(w: nat, l: nat)
    ensures 0.0 <= Ratio(w as real, w + l) <= 1.0
  {
    if w + l > 0 {
      RatioIff(Ratio(w as real, w + l), w as real, w + l);
    }
  }

  /** `get_trade`: the first trade whose id is `id`. */
  function GetTrade(history: seq<StoredTrade>, id: string): (r: Option<StoredTrade>)
    ensures r.None? <==> forall i :: 0 <= i < |history| ==> history[i].tradeId != Some(id)
    ensures r.Some? ==> exists i :: 0 <= i < |history| && history[i] == r.value && r.value.tradeId == Some(id) &&
                                     forall j :: 0 <= j < i ==> history[j].tradeId != Some(id)
    decreases |history|
  {
    if history == [] then None
    else if history[0].tradeId == Some(id) then Some(history[0])
    else
      var r := GetTrade(history[1..], id);
      assert forall i :: 1 <= i < |history| ==> history[i] == history[1..][i - 1];
      r
  }

  /** The last 50 trades of the history (all of them when there are fewer). */
  function RecentWindow(history: seq<StoredTrade>): (r: seq<StoredTrade>)
    ensures |r| == if |history| <= 50 then |history| else 50
    ensures history == history[..|history| - |r|] + r
  {
    if |history| <= 50 then history else history[|history| - 50..]
  }

  /** The statistics handed to the model. */
  datatype MemoryContext = MemoryContext(
    fvgOnlyStats: JournalStats, levelOnlyStats: JournalStats, overallRecentStats: JournalStats,
    totalTradesAllTime: nat)

  const FvgOnly: TradeFilters := TradeFilters(Some("fvg_only"), None, None, None)
  const LevelOnly: TradeFilters := TradeFilters(Some("level_only"), None, None, None)

  /** The journal, in storage order. */
  class MemoryManager {
    var tradeHistory: seq<StoredTrade>

    /** Starts from the history loaded from the journal file. */
    constructor(loaded: seq<StoredTrade>)
      ensures tradeHistory == loaded
    {
      tradeHistory := loaded;
    }

    /**
     * `store_trade`: keeps the trade's id when it is present and non-empty,
     * otherwise uses `nowIso` (the current time as text); the trade is
     * appended with that id.
     */
    method StoreTrade(trade: StoredTrade, nowIso: string) returns (id: string)
      modifies this
      ensures id == if trade.tradeId.Some? && trade.tradeId.value != "" then trade.tradeId.value else nowIso
      ensures tradeHistory == old(tradeHistory) + [trade.(tradeId := Some(id))]
    {
      id := if trade.tradeId.Some? && trade.tradeId.value != "" then trade.tradeId.value else nowIso;
      tradeHistory := tradeHistory + [trade.(tradeId := Some(id))];
    }

    /** `query_trades`: walks the history newest first, collecting matches until `limit` are held. */
    method QueryTrades(f: TradeFilters, limit: int) returns (results: seq<StoredTrade>)
      ensures results == QueryResult(f, tradeHistory, limit)
    {
      var h := tradeHistory;
      var n := |h|;
      results := [];
      var k := 0;
      while k < n
        invariant 0 <= k <= n
        invariant results == RecentMatches(f, h[n - k..])
        invariant |results| < Bound(limit)
      {
        var trade := h[n - k - 1];
        assert h[n - k - 1..] == [trade] + h[n - k..];
        RecentMatchesConcat(f, [trade], h[n - k..]);
        assert RecentMatches(f, [trade]) == if Matches(f, trade) then [trade] else [];
        if Matches(f, trade) {
          results := results + [trade];
          if |results| >= limit {
            k := k + 1;
            FirstMatchesArePrefix(f, h, n - k, results, limit);
            return;
          }
        }
        k := k + 1;
      }
      assert h[n - k..] == h;
    }

    /** `get_memory_context`: setup-type statistics over the last 20 matches each, and the last 50 trades overall. */
    method GetMemoryContext() returns (ctx: MemoryContext)
      ensures ctx == MemoryContext(Stats(QueryResult(FvgOnly, tradeHistory, 20)),
                                   Stats(QueryResult(LevelOnly, tradeHistory, 20)),
                                   Stats(RecentWindow(tradeHistory)), |tradeHistory|)
    {
      var fvgTrades := QueryTrades(FvgOnly, 20);
      var fvgStats := CalculateStats(fvgTrades);
      var levelTrades := QueryTrades(LevelOnly, 20);
      var levelStats := CalculateStats(levelTrades);
      var recent := if |tradeHistory| > 0 then RecentWindow(tradeHistory) else [];
      var overall := CalculateStats(recent);
      ctx := MemoryContext(fvgStats, levelStats, overall, |tradeHistory|);
    }
  }

  /** Once the newest matches of a suffix reach the bound, they are the query result for the whole history. */
  lemma FirstMatchesArePrefix(f: TradeFilters, h: seq<StoredTrade>, j: int, results: seq<StoredTrade>, limit: int)
    requires 0 <= j <= |h| && results == RecentMatches(f, h[j..]) && |results| == Bound(limit)
    ensures results == QueryResult(f, h, limit)
  {
    assert h == h[..j] + h[j..];
    RecentMatchesConcat(f, h[..j], h[j..]);
    var m := RecentMatches(f, h);
    assert m[..|results|] == results;
  }

  /** `calculate_stats`: one pass over the trades with counters and sums. */
  method CalculateStats(trades: seq<StoredTrade>) returns (st: JournalStats)
    ensures st == Stats(trades)
  {
    if trades == [] {
      return JournalStats(0, 0, 0, 0, 0.0, 0.0, 0.0, 0.0);
    }
    var wins, losses, breakeven: nat := 0, 0, 0;
    var totalPnl, totalRr := 0.0, 0.0;
    var k := 0;
    while k < |trades|
      invariant 0 <= k <= |trades|
      invariant wins == Count(IsWinResult, trades[..k]) && losses == Count(IsLossResult, trades[..k])
      invariant breakeven == Count(IsBreakevenResult, trades[..k])
      invariant totalPnl == Sum(PnlOf, trades[..k]) && totalRr == Sum(RrOf, trades[..k])
    {
      assert trades[..k + 1][..k] == trades[..k];
      var t := trades[k];
      if t.result == Some("WIN") {
        wins := wins + 1;
      } else if t.result == Some("LOSS") {
        losses := losses + 1;
      } else if t.result == Some("BREAKEVEN") {
        breakeven := breakeven + 1;
      }
      totalPnl := totalPnl + PnlOf(t);
      totalRr := totalRr + RrOf(t);
      k := k + 1;
    }
    assert trades[..k] == trades;
    var total := |trades|;
    var completed := wins + losses;
    st := JournalStats(total, wins, losses, breakeven,
                       if completed > 0 then wins as real / completed as real else 0.0,
                       if total > 0 then totalRr / total as real else 0.0,
                       totalPnl,
                       if total > 0 then totalPnl / total as real else 0.0);
  }
}
