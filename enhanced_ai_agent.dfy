/**
 * The multi-perspective consensus of src/enhanced_ai_agent.py: three views
 * (trend, zone, risk) each cast one vote for LONG, SHORT or NO_TRADE; the
 * consensus is the first direction with the most votes, kept only with at
 * least 0.67 agreement. The model calls are outside the model: each view is
 * given as its decoded JSON object, or None when the reply did not decode
 * to an object (the source then falls back to the failure result).
 */
module EnhancedAiAgent {
  import opened Common

  datatype Direction = Long | Short | NoTrade

  /** The perspectives, in the order their dissent is listed. */
  datatype Perspective = Trend | Zone | Risk

  function DirectionName(d: Direction): string
  {
    match d
    case Long => "LONG"
    case Short => "SHORT"
    case NoTrade => "NO_TRADE"
  }

  /** `view.get(key)`, None (Python's) when absent. */
  function Get(view: map<string, Value>, key: string): Value
  {
    if key in view then view[key] else VNull
  }

  /** Lists and dicts cannot be looked up in a dict: `x in votes` raises `TypeError` for them. */
  predicate Unhashable(v: Value)
  {
    v.VList? || v.VDict?
  }

  /** `LONG` / `SHORT` for a string naming one of them. */
  function TradeDirection(v: Value): Option<Direction>
  {
    if v == VStr("LONG") then Some(Long) else if v == VStr("SHORT") then Some(Short) else None
  }

  /** The trend vote: its `direction` if that names one of the three, else NO_TRADE; None when the lookup raises. */
  function TrendVote(view: map<string, Value>): Option<Direction>
  {
    var d := Get(view, "direction");
    if Unhashable(d) then None
    else if TradeDirection(d).Some? then TradeDirection(d)
    else Some(NoTrade)
  }

  /** The zone and risk votes: the named side when the flag is truthy and names LONG or SHORT, else NO_TRADE. */
  function FlaggedVote(view: map<string, Value>, flag: string, key: string): Direction
  {
    var d := TradeDirection(Get(view, key));
    if Truthy(Get(view, flag)) && d.Some? then d.value else NoTrade
  }

  /** The three vote counts. */
  datatype Votes = Votes(long: nat, short: nat, noTrade: nat)

  function VotesFor(v: Votes, d: Direction): nat
  {
    match d
    case Long => v.long
    case Short => v.short
    case NoTrade => v.noTrade
  }

  function AddVote(v: Votes, d: Direction): Votes
  {
    match d
    case Long => v.(long := v.long + 1)
    case Short => v.(short := v.short + 1)
    case NoTrade => v.(noTrade := v.noTrade + 1)
  }

  /** The consensus record `get_multi_perspective_analysis` returns (the reasoning text and reasons are left out). */
  datatype Consensus = Consensus(
    direction: Direction, confidence: real, agreementLevel: real,
    entry: real, stop: real, target: real, dissenting: seq<Perspective>)

  /** The result when a perspective could not be obtained or decoded. */
  const Failed: Consensus := Consensus(NoTrade, 0.0, 0.0, 0.0, 0.0, 0.0, [])

  function VoteMax(v: Votes): nat
  {
    var m := if v.long >= v.short then v.long else v.short;
    if m >= v.noTrade then m else v.noTrade
  }

  /** The first of LONG, SHORT, NO_TRADE whose count is the maximum: no direction has more, none before it as many. */
  function FirstMax(v: Votes): (d: Direction)
    ensures forall d' :: VotesFor(v, d') <= VotesFor(v, d)
    ensures d == Short ==> v.long < v.short
    ensures d == NoTrade ==> v.long < v.noTrade && v.short < v.noTrade
  {
    var m := VoteMax(v);
    if v.long == m then Long else if v.short == m then Short else NoTrade
  }

  /** Which perspectives did not name the final direction (a zone or risk view's own key is compared). */
  function Dissent(trend: map<string, Value>, zone: map<string, Value>, risk: map<string, Value>, d: Direction): seq<Perspective>
  {
    var name := VStr(DirectionName(d));
    (if Get(trend, "direction") != name then [Trend] else []) +
    (if Get(zone, "zone_type") != name then [Zone] else []) +
    (if Get(risk, "best_direction") != name then [Risk] else [])
  }

  /**
   * The votes cast by the three views, or None when the trend lookup
   * raises. Exactly three votes are cast, and all three go to one side
   * exactly when the trend names it and the zone and risk views name it with
   * their flag set.
   */
  function Tally(trend: map<string, Value>, zone: map<string, Value>, risk: map<string, Value>): (r: Option<Votes>)
    ensures r.Some? ==> r.value.long + r.value.short + r.value.noTrade == 3
    ensures r.None? <==> Unhashable(Get(trend, "direction"))
    ensures r == Some(Votes(3, 0, 0)) <==>
              Get(trend, "direction") == VStr("LONG") &&
              Truthy(Get(zone, "at_zone")) && Get(zone, "zone_type") == VStr("LONG") &&
              Truthy(Get(risk, "acceptable_risk")) && Get(risk, "best_direction") == VStr("LONG")
    ensures r == Some(Votes(0, 3, 0)) <==>
              Get(trend, "direction") == VStr("SHORT") &&
              Truthy(Get(zone, "at_zone")) && Get(zone, "zone_type") == VStr("SHORT") &&
              Truthy(Get(risk, "acceptable_risk")) && Get(risk, "best_direction") == VStr("SHORT")
  {
    match TrendVote(trend)
    case None => None
    case Some(t) =>
      Some(AddVote(AddVote(AddVote(Votes(0, 0, 0), t), FlaggedVote(zone, "at_zone", "zone_type")),
                   FlaggedVote(risk, "acceptable_risk", "best_direction")))
  }

  /** The consensus block, given the three decoded views. */
  function MultiPerspective(views: Option<(map<string, Value>, map<string, Value>, map<string, Value>)>, price: real): Consensus
  {
    if views.None? then Failed
    else
      var (trend, zone, risk) := views.value;
      match Tally(trend, zone, risk)
      case None => Failed
      case Some(votes) =>
        var m := VoteMax(votes);
        var first := FirstMax(votes);
        var agreement := m as real / 3.0;
        var direction := if agreement < 0.67 || first == NoTrade then NoTrade else first;
        Consensus(direction, agreement * 0.8, agreement, if direction != NoTrade then price else 0.0, 0.0, 0.0,
                  Dissent(trend, zone, risk, direction))
  }


  /**
   * A trade comes out only when all three views name the same side: two
   * votes give an agreement of 2/3, which is below 0.67. Then the entry is
   * the current price and no view dissents; otherwise the direction is
   * NO_TRADE with entry 0. Stop and target are always 0, and the confidence
   * is 0.8 times the agreement, the share of votes of the first maximum.
   */
  lemma ConsensusSpec(trend: map<string, Value>, zone: map<string, Value>, risk: map<string, Value>, price: real)
    requires Tally(trend, zone, risk).Some?
    ensures var c := MultiPerspective(Some((trend, zone, risk)), price);
            var v := Tally(trend, zone, risk).value;
            (c.direction == Long <==> v.long == 3) && (c.direction == Short <==> v.short == 3) &&
            (c.direction != NoTrade ==> c.entry == price && c.dissenting == []) &&
            (c.direction == NoTrade ==> c.entry == 0.0) &&
            c.stop == 0.0 && c.target == 0.0 &&
            c.agreementLevel * 3.0 == VoteMax(v) as real && c.confidence == c.agreementLevel * 0.8 &&
            1.0 / 3.0 <= c.agreementLevel <= 1.0
  {
    var v := Tally(trend, zone, risk).value;
    var c := MultiPerspective(Some((trend, zone, risk)), price);
    var m := VoteMax(v);
    assert 1 <= m <= 3;
    assert c.agreementLevel == m as real / 3.0;
    if c.direction == Long {
      assert m == 3 && FirstMax(v) == Long;
      assert TrendVote(trend) == Some(Long);
    }
    if c.direction == Short {
      assert m == 3 && FirstMax(v) == Short;
      assert TrendVote(trend) == Some(Short);
    }
  }


  /** The running record of outcomes. */
  class EnhancedTradingAgent {
    var totalSignals: nat
    var wins: nat
    var losses: nat
    var last5Results: seq<string>

    predicate Valid()
      reads this
    {
      totalSignals == wins + losses && |last5Results| <= 5
    }

    constructor()
      ensures Valid() && totalSignals == 0 && wins == 0 && losses == 0 && last5Results == []
    {
      totalSignals, wins, losses, last5Results := 0, 0, 0, [];
    }

    /** `record_outcome`: WIN counts as a win and anything else as a loss; the latest result enters the window. */
    method RecordOutcome(decision: string, result: string)
      requires Valid()
      modifies this
      ensures Valid()
      ensures totalSignals == old(totalSignals) + 1
      ensures wins == old(wins) + (if result == "WIN" then 1 else 0)
      ensures losses == old(losses) + (if result == "WIN" then 0 else 1)
      ensures last5Results == PushBounded(old(last5Results), result)
    {
      totalSignals := totalSignals + 1;
      if result == "WIN" {
        wins := wins + 1;
      } else {
        losses := losses + 1;
      }
      last5Results := last5Results + [result];
      if |last5Results| > 5 {
        last5Results := last5Results[1..];
      }
    }
  }

  /** Appends and then drops the oldest entry if more than five are held. */
  function PushBounded(window: seq<string>, result: string): (r: seq<string>)
    requires |window| <= 5
    ensures |r| == (if |window| < 5 then |window| + 1 else 5)
    ensures r == (window + [result])[|window| + 1 - |r|..] && r[|r| - 1] == result
  {
    var w := window + [result];
    if |w| > 5 then w[1..] else w
  }

  /** The last `n` entries of `s` (all of them when there are fewer). */
  function LastN(s: seq<string>, n: nat): (r: seq<string>)
    ensures |r| == if |s| <= n then |s| else n
  {
    if |s| <= n then s else s[|s| - n..]
  }

  /** The window is always the five most recent results: pushing onto the last five gives the last five. */
  lemma PushBoundedKeepsLastFive(history: seq<string>, result: string)
    ensures PushBounded(LastN(history, 5), result) == LastN(history + [result], 5)
  {
    var h := history + [result];
    if |history| >= 5 {
      assert (history[|history| - 5..] + [result])[1..] == h[|h| - 5..];
    }
  }

  /** Recording a sequence of outcomes from the start leaves the window at the last five of them. */
  lemma {:induction false} WindowOfHistory(history: seq<string>)
    ensures Windows(history) == LastN(history, 5)
    decreases |history|
  {
    if history != [] {
      var h', last := history[..|history| - 1], history[|history| - 1];
      assert history == h' + [last];
      assert Windows(history) == PushBounded(Windows(h'), last);
      WindowOfHistory(h');
      PushBoundedKeepsLastFive(h', last);
    }
  }

  /** The window after recording `history` one result at a time from an empty window. */
  function Windows(history: seq<string>): (r: seq<string>)
    ensures |r| <= 5
    decreases |history|
  {
    if history == [] then [] else PushBounded(Windows(history[..|history| - 1]), history[|history| - 1])
  }
}
