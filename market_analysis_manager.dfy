/**
 * The analysis state carried between bars (src/market_analysis_manager.py):
 * one assessment per side, whose setup age grows while the previous status
 * was not "none", and the bars-since-trade and bars-since-update counters.
 * The file write is a parameter (`saved`); the clock is `nowIso`.
 */
module MarketAnalysisManager {
  import opened Common

  /**
   * One side's assessment. `status` and `setup_age_bars` are the keys the
   * manager reads or writes (None when absent); every other key of the
   * dictionary is carried in `details` untouched.
   */
  datatype Assessment = Assessment(status: Option<string>, setupAgeBars: Option<int>, details: map<string, Value>)

  /** The analysis dictionary; an absent assessment or counter is None. */
  datatype Analysis = Analysis(
    lastUpdated: string, currentBarIndex: int,
    longAssessment: Option<Assessment>, shortAssessment: Option<Assessment>,
    overallBias: string, waitingFor: string,
    barsSinceLastTrade: Option<int>, barsSinceLastUpdate: Option<int>)

  /** The assessment of a side with no setup. */
  function NoSetup(reasoning: string): Assessment
  {
    Assessment(Some("none"), Some(0),
               map["target_fvg" := VNull, "entry_plan" := VNull, "stop_plan" := VNull, "target_plan" := VNull,
                   "reasoning" := VStr(reasoning), "confidence" := VReal(0.0)])
  }

  /** `_get_empty_analysis`: both sides without a setup and every counter at 0. */
  function EmptyAnalysis(nowIso: string): (a: Analysis)
    ensures a.longAssessment.Some? && a.longAssessment.value.status == Some("none") &&
            a.longAssessment.value.setupAgeBars == Some(0)
    ensures a.shortAssessment.Some? && a.shortAssessment.value.status == Some("none") &&
            a.shortAssessment.value.setupAgeBars == Some(0)
    ensures a.barsSinceLastTrade == Some(0) && a.barsSinceLastUpdate == Some(0) && a.currentBarIndex == 0
    ensures a.lastUpdated == nowIso && a.overallBias == "neutral"
  {
    Analysis(nowIso, 0, Some(NoSetup("No long setup identified yet")), Some(NoSetup("No short setup identified yet")),
             "neutral", "Initial market analysis", Some(0), Some(0))
  }

  /** `get('status') != 'none'` on `get(side, {})`: an absent side or status counts as a live setup. */
  predicate Live(a: Option<Assessment>)
  {
    a.None? || a.value.status != Some("none")
  }

  /** `get(side, {}).get('setup_age_bars', 0)`. */
  function AgeOf(a: Option<Assessment>): int
  {
    if a.Some? && a.value.setupAgeBars.Some? then a.value.setupAgeBars.value else 0
  }

  /** A counter read with default 0. */
  function CounterOf(c: Option<int>): int
  {
    if c.Some? then c.value else 0
  }

  /**
   * Ages one side of the incoming analysis from the previous one: when the
   * previous side was live, the incoming side must exist (otherwise the
   * `KeyError` makes the update fail) and gets the previous age plus one.
   */
  function AgeSide(prev: Option<Assessment>, incoming: Option<Assessment>): Option<Option<Assessment>>
  {
    if !Live(prev) then Some(incoming)
    else if incoming.None? then None
    else Some(Some(incoming.value.(setupAgeBars := Some(AgeOf(prev) + 1))))
  }

  /**
   * The analysis `update_analysis` installs, or None when it fails before
   * installing anything. The update fails exactly when a previously live
   * side is missing from the incoming analysis. Otherwise each side is the incoming one, with
   * its age set to the previous age plus one if the previous status was
   * not "none" (whatever the new status says) and kept as given if it was;
   * the trade counter is the previous one plus one, the update counter 0,
   * and every other field comes from the incoming analysis.
   */
  function Updated(prev: Analysis, incoming: Analysis): (u: Option<Analysis>)
    ensures u.None? <==>
              (Live(prev.longAssessment) && incoming.longAssessment.None?) ||
              (Live(prev.shortAssessment) && incoming.shortAssessment.None?)
    ensures u.Some? ==>
              u.value.longAssessment.Some? == incoming.longAssessment.Some? &&
              u.value.shortAssessment.Some? == incoming.shortAssessment.Some? &&
              (incoming.longAssessment.Some? ==>
                 u.value.longAssessment.value.status == incoming.longAssessment.value.status &&
                 u.value.longAssessment.value.details == incoming.longAssessment.value.details &&
                 u.value.longAssessment.value.setupAgeBars ==
                   (if Live(prev.longAssessment) then Some(AgeOf(prev.longAssessment) + 1)
                    else incoming.longAssessment.value.setupAgeBars)) &&
              (incoming.shortAssessment.Some? ==>
                 u.value.shortAssessment.value.status == incoming.shortAssessment.value.status &&
                 u.value.shortAssessment.value.details == incoming.shortAssessment.value.details &&
                 u.value.shortAssessment.value.setupAgeBars ==
                   (if Live(prev.shortAssessment) then Some(AgeOf(prev.shortAssessment) + 1)
                    else incoming.shortAssessment.value.setupAgeBars)) &&
              u.value.barsSinceLastTrade == Some(CounterOf(prev.barsSinceLastTrade) + 1) &&
              u.value.barsSinceLastUpdate == Some(0) &&
              u.value.lastUpdated == incoming.lastUpdated && u.value.currentBarIndex == incoming.currentBarIndex &&
              u.value.overallBias == incoming.overallBias && u.value.waitingFor == incoming.waitingFor
  {
    match AgeSide(prev.longAssessment, incoming.longAssessment)
    case None => None
    case Some(long) =>
      match AgeSide(prev.shortAssessment, incoming.shortAssessment)
      case None => None
      case Some(short) =>
        Some(incoming.(longAssessment := long, shortAssessment := short,
                       barsSinceLastTrade := Some(CounterOf(prev.barsSinceLastTrade) + 1),
                       barsSinceLastUpdate := Some(0)))
  }

  /**
   * The state after `mark_trade_executed`, or None when the named side is
   * missing (a `KeyError`). Marking a trade zeroes the trade counter and
   * resets only the named side to status "none" and age 0; any other
   * direction changes only the counter; the other side and every other
   * field are kept.
   */
  function Marked(a: Analysis, direction: string): (m: Option<Analysis>)
    ensures m.None? <==>
              (direction == "LONG" && a.longAssessment.None?) || (direction == "SHORT" && a.shortAssessment.None?)
    ensures m.Some? ==>
              m.value.barsSinceLastTrade == Some(0) &&
              m.value == a.(barsSinceLastTrade := Some(0),
                            longAssessment := m.value.longAssessment, shortAssessment := m.value.shortAssessment) &&
              (direction == "LONG" ==> !Live(m.value.longAssessment) && AgeOf(m.value.longAssessment) == 0 &&
                                       m.value.longAssessment.value.details == a.longAssessment.value.details &&
                                       m.value.shortAssessment == a.shortAssessment) &&
              (direction == "SHORT" ==> !Live(m.value.shortAssessment) && AgeOf(m.value.shortAssessment) == 0 &&
                                        m.value.shortAssessment.value.details == a.shortAssessment.value.details &&
                                        m.value.longAssessment == a.longAssessment) &&
              (direction != "LONG" && direction != "SHORT" ==> m.value == a.(barsSinceLastTrade := Some(0)))
  {
    var a' := a.(barsSinceLastTrade := Some(0));
    if direction == "LONG" then
      if a.longAssessment.None? then None
      else Some(a'.(longAssessment := Some(a.longAssessment.value.(status := Some("none"), setupAgeBars := Some(0)))))
    else if direction == "SHORT" then
      if a.shortAssessment.None? then None
      else Some(a'.(shortAssessment := Some(a.shortAssessment.value.(status := Some("none"), setupAgeBars := Some(0)))))
    else Some(a')
  }

  /**
   * After a LONG trade is marked, the next update takes the incoming long
   * assessment as it is (its age is not derived from the executed setup),
   * and the trade counter restarts at 1.
   */
  lemma MarkThenUpdate(a: Analysis, incoming: Analysis)
    requires Marked(a, "LONG").Some?
    requires Updated(Marked(a, "LONG").value, incoming).Some?
    ensures var u := Updated(Marked(a, "LONG").value, incoming).value;
            u.longAssessment == incoming.longAssessment && u.barsSinceLastTrade == Some(1)
  {
    var m := Marked(a, "LONG").value;
    assert !Live(m.longAssessment);
  }

  /**
   * A setup that stays live ages by one per update: two updates whose
   * incoming long side is still live leave its age two above the start.
   */
  lemma AgeCountsUpdates(a: Analysis, in1: Analysis, in2: Analysis)
    requires Live(a.longAssessment) && Updated(a, in1).Some?
    requires Live(Updated(a, in1).value.longAssessment) && Updated(Updated(a, in1).value, in2).Some?
    ensures AgeOf(Updated(Updated(a, in1).value, in2).value.longAssessment) == AgeOf(a.longAssessment) + 2
  {
    var u1 := Updated(a, in1).value;
    assert AgeOf(u1.longAssessment) == AgeOf(a.longAssessment) + 1;
  }

  /** Holds the analysis in effect between bars. */
  class MarketAnalysisManager {
    var currentAnalysis: Analysis

    /** Starts from the analysis loaded from its file, or an empty one when there is none or it cannot be read. */
    constructor(loaded: Option<Analysis>, nowIso: string)
      ensures currentAnalysis == if loaded.Some? then loaded.value else EmptyAnalysis(nowIso)
    {
      currentAnalysis := if loaded.Some? then loaded.value else EmptyAnalysis(nowIso);
    }

    /**
     * `update_analysis`: installs the aged incoming analysis, then saves it
     * (stamping `lastUpdated`), answering whether the save succeeded; a
     * missing side leaves the state unchanged and answers false.
     */
    method UpdateAnalysis(incoming: Analysis, nowIso: string, saved: bool) returns (ok: bool)
      modifies this
      ensures Updated(old(currentAnalysis), incoming).None? ==> !ok && currentAnalysis == old(currentAnalysis)
      ensures Updated(old(currentAnalysis), incoming).Some? ==>
                ok == saved && currentAnalysis == Updated(old(currentAnalysis), incoming).value.(lastUpdated := nowIso)
    {
      var prev := currentAnalysis;
      var next := incoming;
      if Live(prev.longAssessment) {
        if next.longAssessment.None? {
          return false;
        }
        next := next.(longAssessment := Some(next.longAssessment.value.(setupAgeBars := Some(AgeOf(prev.longAssessment) + 1))));
      }
      if Live(prev.shortAssessment) {
        if next.shortAssessment.None? {
          return false;
        }
        next := next.(shortAssessment := Some(next.shortAssessment.value.(setupAgeBars := Some(AgeOf(prev.shortAssessment) + 1))));
      }
      next := next.(barsSinceLastTrade := Some(CounterOf(prev.barsSinceLastTrade) + 1));
      next := next.(barsSinceLastUpdate := Some(0));
      currentAnalysis := next;
      ok := SaveAnalysis(nowIso, saved);
    }

    /** `save_analysis` on the current state: stamps the time, then reports the write's outcome. */
    method SaveAnalysis(nowIso: string, saved: bool) returns (ok: bool)
      modifies this
      ensures ok == saved && currentAnalysis == old(currentAnalysis).(lastUpdated := nowIso)
    {
      currentAnalysis := currentAnalysis.(lastUpdated := nowIso);
      ok := saved;
    }

    /**
     * `mark_trade_executed`: the trade counter is zeroed first, so a
     * `KeyError` on a missing side (`raised`) still leaves it at 0, unsaved;
     * otherwise the side is reset and the state saved.
     */
    method MarkTradeExecuted(direction: string, nowIso: string, saved: bool) returns (raised: bool)
      modifies this
      ensures raised <==> Marked(old(currentAnalysis), direction).None?
      ensures raised ==> currentAnalysis == old(currentAnalysis).(barsSinceLastTrade := Some(0))
      ensures !raised ==> currentAnalysis == Marked(old(currentAnalysis), direction).value.(lastUpdated := nowIso)
    {
      currentAnalysis := currentAnalysis.(barsSinceLastTrade := Some(0));
      if direction == "LONG" {
        if currentAnalysis.longAssessment.None? {
          return true;
        }
        var side := currentAnalysis.longAssessment.value;
        currentAnalysis := currentAnalysis.(longAssessment := Some(side.(status := Some("none"), setupAgeBars := Some(0))));
      } else if direction == "SHORT" {
        if currentAnalysis.shortAssessment.None? {
          return true;
        }
        var side := currentAnalysis.shortAssessment.value;
        currentAnalysis := currentAnalysis.(shortAssessment := Some(side.(status := Some("none"), setupAgeBars := Some(0))));
      }
      raised := false;
      var _ := SaveAnalysis(nowIso, saved);
    }
  }
}
