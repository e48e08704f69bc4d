/**
 * The rule-based check of an AI trading decision (src/ai_validator.py):
 * errors from the math, price-sanity and risk/reward rules are collected
 * together and block the trade; trend, zone-distance and flip-flop
 * findings are warnings only. A bounded history of the last ten decisions
 * feeds the flip-flop rule. The confidence calibrator tallies outcomes in
 * four confidence buckets and decides whether the confidence is predictive.
 *
 * `now` (seconds) stands for `datetime.now()`. Keys missing from the
 * decision are given their documented defaults by the caller: the
 * direction "NONE", and zero for every price and the confidence.
 */
module AiValidator {
  import opened Common

  datatype Setup = Setup(entry: real, stop: real, target: real, confidence: real)

  /** The setup read when the decision holds none for its side. */
  const NoSetup := Setup(0.0, 0.0, 0.0, 0.0)

  datatype Decision = Decision(primary: string, longSetup: Setup, shortSetup: Setup)

  /** The nearest opposite zone as seen by the zone-relevance rule; `None` also stands for an empty dictionary. */
  datatype FvgContext = FvgContext(nearestBullish: Option<ZoneInfo>, nearestBearish: Option<ZoneInfo>)
  datatype ZoneInfo = ZoneInfo(distance: Option<real>)

  datatype ValidationError =
    | LongStopNotBelowEntry | LongTargetNotAboveEntry | LongStopAboveCurrent
    | ShortStopNotAboveEntry | ShortTargetNotBelowEntry | ShortStopBelowCurrent
    | InvalidEntryPrice | InvalidStopPrice | InvalidTargetPrice
    | EntryTooFar(percent: real) | StopTooTight(distance: real) | StopTooWide(distance: real)
    | RiskIsZero | RiskRewardTooLow(ratio: real)

  datatype ValidationWarning =
    | AgainstStrongDowntrend | AgainstShortTermDowntrend
    | AgainstStrongUptrend | AgainstShortTermUptrend
    | FarFromFvg(distance: real)
    | DirectionChanged(from: string, to: string, seconds: int)

  datatype ValidationResult = ValidationResult(isValid: bool, errors: seq<ValidationError>,
                                               warnings: seq<ValidationWarning>,
                                               overrideReason: Option<ValidationError>)

  datatype DecisionRecord = DecisionRecord(timestamp: int, direction: string, price: real, confidence: real)

  const MaxHistory := 10

  function B2I(b: bool): int { if b then 1 else 0 }

  /** `_validate_math`: one error per wrong-side condition. */
  function MathErrors(direction: string, entry: real, stop: real, target: real, current: real): (r: seq<ValidationError>)
    ensures direction != "LONG" && direction != "SHORT" ==> r == []
    ensures direction == "LONG" ==>
              (LongStopNotBelowEntry in r <==> stop >= entry) &&
              (LongTargetNotAboveEntry in r <==> target <= entry) &&
              (LongStopAboveCurrent in r <==> stop >= current) &&
              |r| == B2I(stop >= entry) + B2I(target <= entry) + B2I(stop >= current)
    ensures direction == "SHORT" ==>
              (ShortStopNotAboveEntry in r <==> stop <= entry) &&
              (ShortTargetNotBelowEntry in r <==> target >= entry) &&
              (ShortStopBelowCurrent in r <==> stop <= current) &&
              |r| == B2I(stop <= entry) + B2I(target >= entry) + B2I(stop <= current)
    ensures |r| <= 3
  {
    if direction == "LONG" then
      (if stop >= entry then [LongStopNotBelowEntry] else []) +
      (if target <= entry then [LongTargetNotAboveEntry] else []) +
      (if stop >= current then [LongStopAboveCurrent] else [])
    else if direction == "SHORT" then
      (if stop <= entry then [ShortStopNotAboveEntry] else []) +
      (if target >= entry then [ShortTargetNotBelowEntry] else []) +
      (if stop <= current then [ShortStopBelowCurrent] else [])
    else []
  }

  function EntryDistancePercent(entry: real, current: real): real
    requires current > 0.0
  {
    Abs(entry - current) / current * 100.0
  }

  /** The non-positive-price part of `_validate_price_sanity`. */
  function PriceErrors(entry: real, stop: real, target: real): (r: seq<ValidationError>)
    ensures InvalidEntryPrice in r <==> entry <= 0.0
    ensures InvalidStopPrice in r <==> stop <= 0.0
    ensures InvalidTargetPrice in r <==> target <= 0.0
    ensures forall i :: 0 <= i < |r| ==> r[i].InvalidEntryPrice? || r[i].InvalidStopPrice? || r[i].InvalidTargetPrice?
    ensures |r| == B2I(entry <= 0.0) + B2I(stop <= 0.0) + B2I(target <= 0.0)
  {
    (if entry <= 0.0 then [InvalidEntryPrice] else []) +
    (if stop <= 0.0 then [InvalidStopPrice] else []) +
    (if target <= 0.0 then [InvalidTargetPrice] else [])
  }

  /** The distance part of `_validate_price_sanity`: entry within 2% of a positive current price, stop distance in [10, 100]. */
  function DistanceErrors(entry: real, stop: real, current: real): (r: seq<ValidationError>)
    ensures current > 0.0 && EntryDistancePercent(entry, current) > 2.0 ==>
              EntryTooFar(EntryDistancePercent(entry, current)) in r
    ensures (StopTooTight(Abs(entry - stop)) in r) <==> Abs(entry - stop) < 10.0
    ensures (StopTooWide(Abs(entry - stop)) in r) <==> Abs(entry - stop) > 100.0
    ensures forall i :: 0 <= i < |r| ==> r[i].EntryTooFar? || r[i].StopTooTight? || r[i].StopTooWide?
    ensures |r| == B2I(current > 0.0 && EntryDistancePercent(entry, current) > 2.0) +
                   B2I(Abs(entry - stop) < 10.0) + B2I(Abs(entry - stop) > 100.0)
  {
    var d := Abs(entry - stop);
    (if current > 0.0 && EntryDistancePercent(entry, current) > 2.0
     then [EntryTooFar(EntryDistancePercent(entry, current))] else []) +
    (if d < 10.0 then [StopTooTight(d)] else []) +
    (if d > 100.0 then [StopTooWide(d)] else [])
  }

  /** `_validate_price_sanity`: one error per failed price rule. */
  function SanityErrors(entry: real, stop: real, target: real, current: real): (r: seq<ValidationError>)
    ensures |r| == B2I(entry <= 0.0) + B2I(stop <= 0.0) + B2I(target <= 0.0) +
                   B2I(current > 0.0 && EntryDistancePercent(entry, current) > 2.0) +
                   B2I(Abs(entry - stop) < 10.0) + B2I(Abs(entry - stop) > 100.0)
  {
    PriceErrors(entry, stop, target) + DistanceErrors(entry, stop, current)
  }

  /** Each non-positive price is reported, and only those. */
  lemma SanityPriceMembers(entry: real, stop: real, target: real, current: real)
    ensures var r := SanityErrors(entry, stop, target, current);
            (InvalidEntryPrice in r <==> entry <= 0.0) &&
            (InvalidStopPrice in r <==> stop <= 0.0) &&
            (InvalidTargetPrice in r <==> target <= 0.0)
  {
    var q := DistanceErrors(entry, stop, current);
    assert InvalidEntryPrice !in q && InvalidStopPrice !in q && InvalidTargetPrice !in q;
  }

  /**
   * An entry more than 2% from a positive current price is reported, and a
   * stop distance outside [10, 100] is reported exactly when it is outside.
   */
  lemma SanityDistanceMembers(entry: real, stop: real, target: real, current: real)
    ensures var r := SanityErrors(entry, stop, target, current);
            (current > 0.0 && EntryDistancePercent(entry, current) > 2.0 ==>
               EntryTooFar(EntryDistancePercent(entry, current)) in r) &&
            (StopTooTight(Abs(entry - stop)) in r <==> Abs(entry - stop) < 10.0) &&
            (StopTooWide(Abs(entry - stop)) in r <==> Abs(entry - stop) > 100.0)
  {
    var p := PriceErrors(entry, stop, target);
    assert StopTooTight(Abs(entry - stop)) !in p && StopTooWide(Abs(entry - stop)) !in p;
  }

  /** `_validate_risk_reward`. */
  function RiskRewardErrors(entry: real, stop: real, target: real): (r: seq<ValidationError>)
    ensures entry == stop ==> r == [RiskIsZero]
    ensures entry != stop ==>
              (r == [] <==> Abs(target - entry) >= 3.0 * Abs(entry - stop)) &&
              (r != [] ==> r == [RiskRewardTooLow(Abs(target - entry) / Abs(entry - stop))])
  {
    var risk := Abs(entry - stop);
    var reward := Abs(target - entry);
    if risk == 0.0 then [RiskIsZero]
    else
      RatioBelow(reward, risk, 3.0);
      if reward / risk < 3.0 then [RiskRewardTooLow(reward / risk)]
      else []
  }

  lemma RatioBelow(reward: real, risk: real, k: real)
    requires risk > 0.0
    ensures reward / risk < k <==> reward < k * risk
  {
    assert reward / risk * risk == reward;
    if reward / risk < k {
      assert reward / risk * risk < k * risk;
    }
  }

  /** `_validate_trend_alignment`: skipped when EMA21 or EMA75 is zero. */
  function TrendWarnings(direction: string, ema21: real, ema75: real, ema150: real): (r: seq<ValidationWarning>)
    ensures |r| <= 1
    ensures ema21 == 0.0 || ema75 == 0.0 || (direction != "LONG" && direction != "SHORT") ==> r == []
    ensures ema21 != 0.0 && ema75 != 0.0 && direction == "LONG" ==>
              (r != [] <==> ema21 < ema75) &&
              (r == [AgainstStrongDowntrend] <==> ema21 < ema75 < ema150)
    ensures ema21 != 0.0 && ema75 != 0.0 && direction == "SHORT" ==>
              (r != [] <==> ema21 > ema75) &&
              (r == [AgainstStrongUptrend] <==> ema21 > ema75 > ema150)
  {
    if ema21 == 0.0 || ema75 == 0.0 then []
    else if direction == "LONG" then
      if ema21 < ema75 < ema150 then [AgainstStrongDowntrend]
      else if ema21 < ema75 then [AgainstShortTermDowntrend]
      else []
    else if direction == "SHORT" then
      if ema21 > ema75 > ema150 then [AgainstStrongUptrend]
      else if ema21 > ema75 then [AgainstShortTermUptrend]
      else []
    else []
  }

  /** The distance of a zone entry; 999 when the key is missing. */
  function ZoneDistance(z: ZoneInfo): real
  {
    match z.distance
    case Some(d) => d
    case None => 999.0
  }

  /** `_validate_fvg_relevance`: a LONG looks at the nearest bearish zone, a SHORT at the nearest bullish one. */
  function FvgWarnings(direction: string, fvg: FvgContext): (r: seq<ValidationWarning>)
    ensures |r| <= 1
    ensures r != [] <==>
              (direction == "LONG" && fvg.nearestBearish.Some? && ZoneDistance(fvg.nearestBearish.value) > 50.0) ||
              (direction == "SHORT" && fvg.nearestBullish.Some? && ZoneDistance(fvg.nearestBullish.value) > 50.0)
  {
    var z := if direction == "LONG" then fvg.nearestBearish
             else if direction == "SHORT" then fvg.nearestBullish
             else None;
    match z
    case Some(info) => if ZoneDistance(info) > 50.0 then [FarFromFvg(ZoneDistance(info))] else []
    case None => []
  }

  /** `_check_consistency`: a direction flip within an hour of the last record, once two are held. */
  function ConsistencyWarnings(direction: string, history: seq<DecisionRecord>, now: int): (r: seq<ValidationWarning>)
    ensures |r| <= 1
    ensures r != [] <==>
              |history| >= 2 && history[|history| - 1].direction != "NONE" &&
              history[|history| - 1].direction != direction && now - history[|history| - 1].timestamp < 3600
  {
    if |history| < 2 then []
    else
      var last := history[|history| - 1];
      if last.direction != "NONE" && last.direction != direction && now - last.timestamp < 3600
      then [DirectionChanged(last.direction, direction, now - last.timestamp)]
      else []
  }

  function ChosenSetup(d: Decision): Setup
  {
    if d.primary == "LONG" then d.longSetup else d.shortSetup
  }

  /**
   * `validate_decision` on the history held before the call. The record it
   * appends is `RecordOf`, and is appended only for a decision that is not
   * "NONE".
   */
  function Validate(d: Decision, current: real, ema21: real, ema75: real, ema150: real,
                    fvg: FvgContext, history: seq<DecisionRecord>, now: int): (r: ValidationResult)
    ensures d.primary == "NONE" ==> r == ValidationResult(true, [], [], None)
    ensures r.isValid <==> r.errors == []
    ensures r.overrideReason == (if r.errors == [] then None else Some(r.errors[0]))
  {
    if d.primary == "NONE" then ValidationResult(true, [], [], None)
    else
      var s := ChosenSetup(d);
      var errors := MathErrors(d.primary, s.entry, s.stop, s.target, current) +
                    SanityErrors(s.entry, s.stop, s.target, current) +
                    RiskRewardErrors(s.entry, s.stop, s.target);
      var warnings := TrendWarnings(d.primary, ema21, ema75, ema150) +
                      FvgWarnings(d.primary, fvg) +
                      ConsistencyWarnings(d.primary, history, now);
      ValidationResult(errors == [], errors, warnings, if errors == [] then None else Some(errors[0]))
  }

  /**
   * The checks are aggregated rather than short-circuited: every error of
   * each blocking rule appears in the result, in rule order, and the
   * warnings are exactly those of the three advisory rules.
   */
  lemma ValidateAggregates(d: Decision, current: real, ema21: real, ema75: real, ema150: real,
                           fvg: FvgContext, history: seq<DecisionRecord>, now: int)
    requires d.primary != "NONE"
    ensures var s := ChosenSetup(d);
            var r := Validate(d, current, ema21, ema75, ema150, fvg, history, now);
            r.errors == MathErrors(d.primary, s.entry, s.stop, s.target, current) +
                        SanityErrors(s.entry, s.stop, s.target, current) +
                        RiskRewardErrors(s.entry, s.stop, s.target) &&
            r.warnings == TrendWarnings(d.primary, ema21, ema75, ema150) +
                          FvgWarnings(d.primary, fvg) +
                          ConsistencyWarnings(d.primary, history, now)
  {
  }

  /**
   * Each blocking rule reports its error exactly when its condition holds on
   * the chosen setup, whatever the other rules find: the wrong-side errors
   * for the decision's direction, the non-positive prices, a stop distance
   * outside [10, 100], an entry more than 2% from a positive current price,
   * a zero risk, and a reward below three times a non-zero risk.
   */
  lemma ValidateErrorRules(d: Decision, current: real, ema21: real, ema75: real, ema150: real,
                           fvg: FvgContext, history: seq<DecisionRecord>, now: int)
    requires d.primary != "NONE"
    ensures var s := ChosenSetup(d);
            RulesReport(d.primary, s, current, Validate(d, current, ema21, ema75, ema150, fvg, history, now).errors)
  {
    var s := ChosenSetup(d);
    ValidateAggregates(d, current, ema21, ema75, ema150, fvg, history, now);
    var m := MathErrors(d.primary, s.entry, s.stop, s.target, current);
    var k := SanityErrors(s.entry, s.stop, s.target, current);
    var q := RiskRewardErrors(s.entry, s.stop, s.target);
    AllRulesReport(d.primary, s, current, m, k, q);
  }

  /**
   * What the error list `e` says about setup `s`: each rule's error is in it
   * exactly when the rule's condition holds.
   */
  predicate RulesReport(direction: string, s: Setup, current: real, e: seq<ValidationError>)
  {
    SideReport(direction, s.entry, s.stop, s.target, current, e) &&
    SanityReport(s.entry, s.stop, s.target, current, e) &&
    RiskReport(s.entry, s.stop, s.target, e)
  }

  predicate SideReport(direction: string, entry: real, stop: real, target: real, current: real,
                       e: seq<ValidationError>)
  {
    (direction == "LONG" ==>
       (LongStopNotBelowEntry in e <==> stop >= entry) &&
       (LongTargetNotAboveEntry in e <==> target <= entry) &&
       (LongStopAboveCurrent in e <==> stop >= current)) &&
    (direction == "SHORT" ==>
       (ShortStopNotAboveEntry in e <==> stop <= entry) &&
       (ShortTargetNotBelowEntry in e <==> target >= entry) &&
       (ShortStopBelowCurrent in e <==> stop <= current))
  }

  predicate SanityReport(entry: real, stop: real, target: real, current: real, e: seq<ValidationError>)
  {
    (InvalidEntryPrice in e <==> entry <= 0.0) &&
    (InvalidStopPrice in e <==> stop <= 0.0) &&
    (InvalidTargetPrice in e <==> target <= 0.0) &&
    (StopTooTight(Abs(entry - stop)) in e <==> Abs(entry - stop) < 10.0) &&
    (StopTooWide(Abs(entry - stop)) in e <==> Abs(entry - stop) > 100.0) &&
    (current > 0.0 && EntryDistancePercent(entry, current) > 2.0 ==>
       EntryTooFar(EntryDistancePercent(entry, current)) in e)
  }

  predicate RiskReport(entry: real, stop: real, target: real, e: seq<ValidationError>)
  {
    (RiskIsZero in e <==> Abs(entry - stop) == 0.0) &&
    (Abs(entry - stop) != 0.0 ==>
       (RiskRewardTooLow(Abs(target - entry) / Abs(entry - stop)) in e <==>
        Abs(target - entry) < 3.0 * Abs(entry - stop)))
  }

  lemma AllRulesReport(direction: string, s: Setup, current: real,
                       m: seq<ValidationError>, k: seq<ValidationError>, q: seq<ValidationError>)
    requires m == MathErrors(direction, s.entry, s.stop, s.target, current)
    requires k == SanityErrors(s.entry, s.stop, s.target, current)
    requires q == RiskRewardErrors(s.entry, s.stop, s.target)
    ensures RulesReport(direction, s, current, m + k + q)
  {
    SideRulesReport(direction, s.entry, s.stop, s.target, current, m, k, q);
    SanityRulesReport(direction, s.entry, s.stop, s.target, current, m, k, q);
    RiskRulesReport(direction, s.entry, s.stop, s.target, current, m, k, q);
  }

  lemma SideRulesReport(direction: string, entry: real, stop: real, target: real, current: real,
                        m: seq<ValidationError>, k: seq<ValidationError>, q: seq<ValidationError>)
    requires m == MathErrors(direction, entry, stop, target, current)
    requires k == SanityErrors(entry, stop, target, current)
    requires q == RiskRewardErrors(entry, stop, target)
    ensures SideReport(direction, entry, stop, target, current, m + k + q)
  {
    SanityKinds(entry, stop, target, current);
    RiskRewardKinds(entry, stop, target);
    MathRuleMembers(direction, entry, stop, target, current, m, k, q);
  }

  lemma SanityRulesReport(direction: string, entry: real, stop: real, target: real, current: real,
                          m: seq<ValidationError>, k: seq<ValidationError>, q: seq<ValidationError>)
    requires m == MathErrors(direction, entry, stop, target, current)
    requires k == SanityErrors(entry, stop, target, current)
    requires q == RiskRewardErrors(entry, stop, target)
    ensures SanityReport(entry, stop, target, current, m + k + q)
  {
    MathKinds(direction, entry, stop, target, current);
    RiskRewardKinds(entry, stop, target);
    SanityRuleMembers(entry, stop, target, current, m, k, q);
  }

  lemma RiskRulesReport(direction: string, entry: real, stop: real, target: real, current: real,
                        m: seq<ValidationError>, k: seq<ValidationError>, q: seq<ValidationError>)
    requires m == MathErrors(direction, entry, stop, target, current)
    requires k == SanityErrors(entry, stop, target, current)
    requires q == RiskRewardErrors(entry, stop, target)
    ensures RiskReport(entry, stop, target, m + k + q)
  {
    MathKinds(direction, entry, stop, target, current);
    SanityKinds(entry, stop, target, current);
    RiskRuleMembers(entry, stop, target, m, k, q);
  }

  /** The wrong-side errors in the whole list are those of the math rule. */
  lemma MathRuleMembers(direction: string, entry: real, stop: real, target: real, current: real,
                        m: seq<ValidationError>, k: seq<ValidationError>, q: seq<ValidationError>)
    requires m == MathErrors(direction, entry, stop, target, current)
    requires forall x :: x in k ==> !IsSideError(x)
    requires forall x :: x in q ==> !IsSideError(x)
    ensures SideReport(direction, entry, stop, target, current, m + k + q)
  {
    assert IsSideError(LongStopNotBelowEntry) && IsSideError(LongTargetNotAboveEntry) && IsSideError(LongStopAboveCurrent);
    assert IsSideError(ShortStopNotAboveEntry) && IsSideError(ShortTargetNotBelowEntry) && IsSideError(ShortStopBelowCurrent);
  }

  /** The price and distance errors in the whole list are those of the sanity rule. */
  lemma SanityRuleMembers(entry: real, stop: real, target: real, current: real,
                          m: seq<ValidationError>, k: seq<ValidationError>, q: seq<ValidationError>)
    requires k == SanityErrors(entry, stop, target, current)
    requires forall x :: x in m ==> IsSideError(x)
    requires forall x :: x in q ==> x.RiskIsZero? || x.RiskRewardTooLow?
    ensures SanityReport(entry, stop, target, current, m + k + q)
  {
    SanityPriceMembers(entry, stop, target, current);
    SanityDistanceMembers(entry, stop, target, current);
  }

  /** The risk/reward errors in the whole list are those of the risk/reward rule. */
  lemma RiskRuleMembers(entry: real, stop: real, target: real,
                        m: seq<ValidationError>, k: seq<ValidationError>, q: seq<ValidationError>)
    requires q == RiskRewardErrors(entry, stop, target)
    requires forall x :: x in m ==> IsSideError(x)
    requires forall x :: x in k ==> !x.RiskIsZero? && !x.RiskRewardTooLow?
    ensures RiskReport(entry, stop, target, m + k + q)
  {
    var risk, reward := Abs(entry - stop), Abs(target - entry);
    if risk != 0.0 {
      RatioBelow(reward, risk, 3.0);
    }
  }

  predicate IsSideError(x: ValidationError)
  {
    x.LongStopNotBelowEntry? || x.LongTargetNotAboveEntry? || x.LongStopAboveCurrent? ||
    x.ShortStopNotAboveEntry? || x.ShortTargetNotBelowEntry? || x.ShortStopBelowCurrent?
  }

  /** The math rule reports only wrong-side errors. */
  lemma MathKinds(direction: string, entry: real, stop: real, target: real, current: real)
    ensures forall x :: x in MathErrors(direction, entry, stop, target, current) ==> IsSideError(x)
  {
  }

  /** The sanity rule reports only price and distance errors. */
  lemma SanityKinds(entry: real, stop: real, target: real, current: real)
    ensures forall x :: x in SanityErrors(entry, stop, target, current) ==>
              x.InvalidEntryPrice? || x.InvalidStopPrice? || x.InvalidTargetPrice? ||
              x.EntryTooFar? || x.StopTooTight? || x.StopTooWide?
  {
    var p := PriceErrors(entry, stop, target);
    var q := DistanceErrors(entry, stop, current);
    forall x | x in SanityErrors(entry, stop, target, current)
      ensures x.InvalidEntryPrice? || x.InvalidStopPrice? || x.InvalidTargetPrice? ||
              x.EntryTooFar? || x.StopTooTight? || x.StopTooWide?
    {
      assert x in p || x in q;
    }
  }

  /** The risk/reward rule reports only its two errors. */
  lemma RiskRewardKinds(entry: real, stop: real, target: real)
    ensures forall x :: x in RiskRewardErrors(entry, stop, target) ==> x.RiskIsZero? || x.RiskRewardTooLow?
  {
  }

  /** Warnings never invalidate: validity does not depend on EMAs, zones or history. */
  lemma ValidityIgnoresWarnings(d: Decision, current: real,
                                a21: real, a75: real, a150: real, fa: FvgContext, ha: seq<DecisionRecord>, na: int,
                                b21: real, b75: real, b150: real, fb: FvgContext, hb: seq<DecisionRecord>, nb: int)
    ensures Validate(d, current, a21, a75, a150, fa, ha, na).errors ==
            Validate(d, current, b21, b75, b150, fb, hb, nb).errors
  {
  }

  /**
   * A LONG decision that passes has its stop below entry and current price,
   * its target above entry, a stop distance in [10, 100], a reward of at
   * least three times the risk, and (for a positive current price) an entry
   * within 2% of it.
   */
  lemma ValidLongBounds(d: Decision, current: real, ema21: real, ema75: real, ema150: real,
                        fvg: FvgContext, history: seq<DecisionRecord>, now: int)
    requires d.primary == "LONG"
    requires Validate(d, current, ema21, ema75, ema150, fvg, history, now).isValid
    ensures var s := d.longSetup;
            0.0 < s.stop < s.entry < s.target && s.stop < current &&
            10.0 <= s.entry - s.stop <= 100.0 && s.target - s.entry >= 3.0 * (s.entry - s.stop) &&
            (current > 0.0 ==> EntryDistancePercent(s.entry, current) <= 2.0)
  {
    var s := d.longSetup;
    var m := MathErrors(d.primary, s.entry, s.stop, s.target, current);
    var k := SanityErrors(s.entry, s.stop, s.target, current);
    var q := RiskRewardErrors(s.entry, s.stop, s.target);
    assert m + k + q == [];
    assert |m| == 0 && |k| == 0 && q == [];
  }

  /** The mirror image for SHORT. */
  lemma ValidShortBounds(d: Decision, current: real, ema21: real, ema75: real, ema150: real,
                         fvg: FvgContext, history: seq<DecisionRecord>, now: int)
    requires d.primary == "SHORT"
    requires Validate(d, current, ema21, ema75, ema150, fvg, history, now).isValid
    ensures var s := d.shortSetup;
            0.0 < s.target < s.entry < s.stop && s.stop > current &&
            10.0 <= s.stop - s.entry <= 100.0 && s.entry - s.target >= 3.0 * (s.stop - s.entry) &&
            (current > 0.0 ==> EntryDistancePercent(s.entry, current) <= 2.0)
  {
    var s := d.shortSetup;
    var m := MathErrors(d.primary, s.entry, s.stop, s.target, current);
    var k := SanityErrors(s.entry, s.stop, s.target, current);
    var q := RiskRewardErrors(s.entry, s.stop, s.target);
    assert m + k + q == [];
    assert |m| == 0 && |k| == 0 && q == [];
  }

  /**
   * A direction other than LONG, SHORT or NONE reads the short setup and
   * passes exactly when its sanity and risk/reward rules do: no math rule
   * applies to it.
   */
  lemma UnknownDirectionSkipsMath(d: Decision, current: real, ema21: real, ema75: real, ema150: real,
                                  fvg: FvgContext, history: seq<DecisionRecord>, now: int)
    requires d.primary != "NONE" && d.primary != "LONG" && d.primary != "SHORT"
    ensures var s := d.shortSetup;
            Validate(d, current, ema21, ema75, ema150, fvg, history, now).errors ==
            SanityErrors(s.entry, s.stop, s.target, current) + RiskRewardErrors(s.entry, s.stop, s.target)
  {
    var s := d.shortSetup;
    assert ChosenSetup(d) == s;
    var m := MathErrors(d.primary, s.entry, s.stop, s.target, current);
    assert m == [];
    ValidateAggregates(d, current, ema21, ema75, ema150, fvg, history, now);
    var k := SanityErrors(s.entry, s.stop, s.target, current);
    var q := RiskRewardErrors(s.entry, s.stop, s.target);
    EmptyPrefix(m, k, q);
  }

  lemma EmptyPrefix<T>(m: seq<T>, k: seq<T>, q: seq<T>)
    requires m == []
    ensures m + k + q == k + q
  {
  }

  /**
   * `_record_decision`'s record: the confidence is the long setup's when it
   * is non-zero, else the short setup's, whichever side was chosen.
   */
  function RecordOf(d: Decision, current: real, now: int): (r: DecisionRecord)
    ensures r.direction == d.primary && r.timestamp == now && r.price == current
    ensures r.confidence == (if d.longSetup.confidence != 0.0 then d.longSetup.confidence
                             else d.shortSetup.confidence)
  {
    DecisionRecord(now, d.primary,
                   current, if d.longSetup.confidence != 0.0 then d.longSetup.confidence else d.shortSetup.confidence)
  }

  /** Appending to the history and dropping the oldest entry past ten. */
  function Recorded(history: seq<DecisionRecord>, rec: DecisionRecord): (h: seq<DecisionRecord>)
    requires |history| <= MaxHistory
    ensures |h| == if |history| < MaxHistory then |history| + 1 else MaxHistory
    ensures h[|h| - 1] == rec
  {
    var h := history + [rec];
    if |h| > MaxHistory then h[1..] else h
  }

  /** The last ten entries of `s` (all of them when there are fewer). */
  function LastTen(s: seq<DecisionRecord>): (r: seq<DecisionRecord>)
    ensures |r| == if |s| < MaxHistory then |s| else MaxHistory
  {
    if |s| <= MaxHistory then s else s[|s| - MaxHistory..]
  }

  /** Recording onto the last ten of a run of records gives the last ten of the longer run. */
  lemma RecordedKeepsLastTen(all: seq<DecisionRecord>, rec: DecisionRecord)
    ensures Recorded(LastTen(all), rec) == LastTen(all + [rec])
  {
    var a := all + [rec];
    if |all| >= MaxHistory {
      assert (all[|all| - MaxHistory..] + [rec])[1..] == a[|a| - MaxHistory..];
    }
  }

  /**
   * The history keeps the most recent records in order: after any run of
   * recordings it is the last ten of everything recorded.
   */
  lemma {:induction false} RecordedIsSuffix(history: seq<DecisionRecord>, recs: seq<DecisionRecord>)
    requires |history| <= MaxHistory
    ensures RecordAll(history, recs) == LastTen(history + recs)
    decreases |recs|
  {
    if recs == [] {
      assert history + recs == history;
    } else {
      var init, rec := recs[..|recs| - 1], recs[|recs| - 1];
      RecordedIsSuffix(history, init);
      RecordStep(history, recs, init, rec);
    }
  }

  /** One more recording keeps the history the last ten of everything recorded. */
  lemma RecordStep(history: seq<DecisionRecord>, recs: seq<DecisionRecord>,
                   init: seq<DecisionRecord>, rec: DecisionRecord)
    requires |history| <= MaxHistory && recs != []
    requires init == recs[..|recs| - 1] && rec == recs[|recs| - 1]
    requires RecordAll(history, init) == LastTen(history + init)
    ensures RecordAll(history, recs) == LastTen(history + recs)
  {
    var prefix := history + init;
    assert RecordAll(history, recs) == Recorded(RecordAll(history, init), rec);
    RecordedKeepsLastTen(prefix, rec);
    assert prefix + [rec] == history + recs;
  }

  function RecordAll(history: seq<DecisionRecord>, recs: seq<DecisionRecord>): (h: seq<DecisionRecord>)
    requires |history| <= MaxHistory
    ensures |h| <= MaxHistory
    decreases |recs|
  {
    if recs == [] then history
    else Recorded(RecordAll(history, recs[..|recs| - 1]), recs[|recs| - 1])
  }

  /** Recording a decision other than "NONE" keeps "NONE" out of the history. */
  lemma RecordedKeepsDirections(history: seq<DecisionRecord>, rec: DecisionRecord)
    requires |history| <= MaxHistory && rec.direction != "NONE"
    requires forall i :: 0 <= i < |history| ==> history[i].direction != "NONE"
    ensures forall i :: 0 <= i < |Recorded(history, rec)| ==> Recorded(history, rec)[i].direction != "NONE"
  {
    var all := history + [rec];
    assert forall j :: 0 <= j < |all| ==> all[j].direction != "NONE";
    assert Recorded(history, rec) == if |all| > MaxHistory then all[1..] else all;
  }

  /** `AIDecisionValidator`: the validator and its bounded decision history. */
  class DecisionValidator {
    var recentDecisions: seq<DecisionRecord>

    /** At most ten records, none for a "NONE" decision. */
    predicate Valid()
      reads this
    {
      |recentDecisions| <= MaxHistory && forall i :: 0 <= i < |recentDecisions| ==> recentDecisions[i].direction != "NONE"
    }

    constructor()
      ensures recentDecisions == [] && Valid()
    {
      recentDecisions := [];
    }

    /** `validate_decision`: judge against the held history, then record the decision unless it is "NONE". */
    method ValidateDecision(d: Decision, current: real, ema21: real, ema75: real, ema150: real,
                            fvg: FvgContext, now: int) returns (result: ValidationResult)
      requires Valid()
      modifies this`recentDecisions
      ensures Valid()
      ensures result == Validate(d, current, ema21, ema75, ema150, fvg, old(recentDecisions), now)
      ensures recentDecisions == if d.primary == "NONE" then old(recentDecisions)
                                 else Recorded(old(recentDecisions), RecordOf(d, current, now))
    {
      result := Validate(d, current, ema21, ema75, ema150, fvg, recentDecisions, now);
      if d.primary != "NONE" {
        var rec := RecordOf(d, current, now);
        RecordedKeepsDirections(recentDecisions, rec);
        recentDecisions := Recorded(recentDecisions, rec);
      }
    }
  }

  /**
   * With a history the validator keeps, the NONE test of the flip-flop rule
   * never fails: a warning comes exactly from two held records, a different
   * last direction and less than an hour since it.
   */
  lemma FlipWarningOnHeldHistory(direction: string, history: seq<DecisionRecord>, now: int)
    requires forall i :: 0 <= i < |history| ==> history[i].direction != "NONE"
    ensures ConsistencyWarnings(direction, history, now) != [] <==>
              |history| >= 2 && history[|history| - 1].direction != direction &&
              now - history[|history| - 1].timestamp < 3600
  {
  }

  // ---------------------------------------------------------------- calibrator

  datatype BucketName = LowBucket | MediumBucket | HighBucket | VeryHighBucket

  datatype Bucket = Bucket(name: BucketName, low: real, high: real, wins: int, total: int)

  datatype Outcome = Outcome(confidence: real, result: string, timestamp: int)

  /** The four buckets with their half-open ranges, empty. */
  const InitialBuckets: seq<Bucket> := [
    Bucket(LowBucket, 0.0, 0.6, 0, 0),
    Bucket(MediumBucket, 0.6, 0.75, 0, 0),
    Bucket(HighBucket, 0.75, 0.9, 0, 0),
    Bucket(VeryHighBucket, 0.9, 1.0, 0, 0)
  ]

  /** The buckets keep the initial names and ranges and 0 <= wins <= total. */
  predicate WellFormed(bs: seq<Bucket>)
  {
    |bs| == 4 &&
    forall i :: 0 <= i < 4 ==>
      bs[i].name == InitialBuckets[i].name && bs[i].low == InitialBuckets[i].low &&
      bs[i].high == InitialBuckets[i].high && 0 <= bs[i].wins <= bs[i].total
  }

  /** The first bucket at or after `i` whose range holds `c`. */
  function FirstBucketFrom(bs: seq<Bucket>, c: real, i: nat): (r: Option<nat>)
    requires i <= |bs|
    ensures r.Some? ==> i <= r.value < |bs| && bs[r.value].low <= c < bs[r.value].high &&
                        forall j :: i <= j < r.value ==> !(bs[j].low <= c < bs[j].high)
    ensures r.None? ==> forall j :: i <= j < |bs| ==> !(bs[j].low <= c < bs[j].high)
    decreases |bs| - i
  {
    if i == |bs| then None
    else if bs[i].low <= c < bs[i].high then Some(i)
    else FirstBucketFrom(bs, c, i + 1)
  }

  function Tally(b: Bucket, result: string): Bucket
  {
    b.(total := b.total + 1, wins := if result == "WIN" then b.wins + 1 else b.wins)
  }

  /** The buckets after `record_outcome`. */
  function Bucketed(bs: seq<Bucket>, c: real, result: string): seq<Bucket>
  {
    match FirstBucketFrom(bs, c, 0)
    case None => bs
    case Some(i) => bs[i := Tally(bs[i], result)]
  }

  /**
   * A confidence in [0, 1) adds one trade to exactly the bucket whose range
   * holds it, and a win to it on "WIN"; any other confidence changes no
   * bucket. The bucket invariant is kept.
   */
  lemma BucketedSpec(bs: seq<Bucket>, c: real, result: string)
    requires WellFormed(bs)
    ensures var nb := Bucketed(bs, c, result);
            WellFormed(nb) &&
            (c < 0.0 || c >= 1.0 ==> nb == bs) &&
            (0.0 <= c < 1.0 ==>
               exists k :: 0 <= k < 4 && bs[k].low <= c < bs[k].high &&
                 nb[k].total == bs[k].total + 1 &&
                 nb[k].wins == bs[k].wins + (if result == "WIN" then 1 else 0) &&
                 forall j :: 0 <= j < 4 && j != k ==> nb[j] == bs[j])
  {
    var r := FirstBucketFrom(bs, c, 0);
    if 0.0 <= c < 1.0 {
      if c < 0.6 { assert bs[0].low <= c < bs[0].high; }
      else if c < 0.75 { assert bs[1].low <= c < bs[1].high; }
      else if c < 0.9 { assert bs[2].low <= c < bs[2].high; }
      else { assert bs[3].low <= c < bs[3].high; }
      assert r.Some?;
      var k := r.value;
      assert bs[k].low <= c < bs[k].high;
    } else {
      assert forall j :: 0 <= j < 4 ==> !(bs[j].low <= c < bs[j].high);
    }
  }

  /** Trades counted over all buckets. */
  function TotalTrades(bs: seq<Bucket>): int
    decreases |bs|
  {
    if bs == [] then 0 else TotalTrades(bs[..|bs| - 1]) + bs[|bs| - 1].total
  }

  /** Buckets holding at least three trades (those that get a rate). */
  function RatedBuckets(bs: seq<Bucket>): nat
    decreases |bs|
  {
    if bs == [] then 0 else RatedBuckets(bs[..|bs| - 1]) + (if bs[|bs| - 1].total >= 3 then 1 else 0)
  }

  function Rate(b: Bucket): real
    requires b.total > 0
  {
    b.wins as real / b.total as real
  }

  datatype TrustReason = InsufficientTrades | NeedMultipleLevels | HighConfidencePerformsBetter | NotPredictive

  /** The verdict of `should_trust_confidence`. */
  function TrustVerdict(bs: seq<Bucket>): (r: (bool, TrustReason))
    requires WellFormed(bs)
  {
    if TotalTrades(bs) < 20 then (false, InsufficientTrades)
    else if RatedBuckets(bs) < 2 then (false, NeedMultipleLevels)
    else if bs[3].total >= 3 && bs[0].total >= 3 && Rate(bs[3]) > Rate(bs[0]) + 0.1
    then (true, HighConfidencePerformsBetter)
    else (false, NotPredictive)
  }

  /**
   * Confidence is trusted exactly when at least 20 trades are bucketed, at
   * least two buckets hold three or more, and the very-high bucket (with at
   * least three trades) wins more than ten points more often than the low
   * bucket (with at least three).
   */
  lemma TrustVerdictSpec(bs: seq<Bucket>)
    requires WellFormed(bs)
    ensures TrustVerdict(bs).0 <==>
              bs[0].total + bs[1].total + bs[2].total + bs[3].total >= 20 &&
              B2I(bs[0].total >= 3) + B2I(bs[1].total >= 3) + B2I(bs[2].total >= 3) + B2I(bs[3].total >= 3) >= 2 &&
              bs[3].total >= 3 && bs[0].total >= 3 && Rate(bs[3]) > Rate(bs[0]) + 0.1
  {
    FourBuckets(bs);
  }

  lemma FourBuckets(bs: seq<Bucket>)
    requires |bs| == 4
    ensures TotalTrades(bs) == bs[0].total + bs[1].total + bs[2].total + bs[3].total
    ensures RatedBuckets(bs) == B2I(bs[0].total >= 3) + B2I(bs[1].total >= 3) +
                                B2I(bs[2].total >= 3) + B2I(bs[3].total >= 3)
  {
    var b1, b2, b3 := bs[..1], bs[..2], bs[..3];
    assert b1[..0] == [] && b2[..1] == b1 && b3[..2] == b2 && bs[..3] == b3;
    assert TotalTrades(b1) == bs[0].total && RatedBuckets(b1) == B2I(bs[0].total >= 3);
    assert TotalTrades(b2) == TotalTrades(b1) + bs[1].total;
    assert RatedBuckets(b2) == RatedBuckets(b1) + B2I(bs[1].total >= 3);
    assert TotalTrades(b3) == TotalTrades(b2) + bs[2].total;
    assert RatedBuckets(b3) == RatedBuckets(b2) + B2I(bs[2].total >= 3);
  }

  /** `AIConfidenceCalibrator`. */
  class ConfidenceCalibrator {
    var outcomes: seq<Outcome>
    var buckets: seq<Bucket>

    predicate Valid()
      reads this
    {
      WellFormed(buckets)
    }

    constructor()
      ensures Valid() && outcomes == [] && buckets == InitialBuckets
    {
      outcomes := [];
      buckets := InitialBuckets;
    }

    /** `record_outcome`: log the outcome, then tally it in the first bucket whose range holds the confidence. */
    method RecordOutcome(confidence: real, result: string, now: int)
      requires Valid()
      modifies this
      ensures Valid()
      ensures outcomes == old(outcomes) + [Outcome(confidence, result, now)]
      ensures buckets == Bucketed(old(buckets), confidence, result)
    {
      outcomes := outcomes + [Outcome(confidence, result, now)];
      BucketedSpec(buckets, confidence, result);
      var i := 0;
      while i < |buckets|
        invariant 0 <= i <= |buckets|
        invariant buckets == old(buckets)
        invariant FirstBucketFrom(buckets, confidence, 0) == FirstBucketFrom(buckets, confidence, i)
      {
        if buckets[i].low <= confidence < buckets[i].high {
          buckets := buckets[i := Tally(buckets[i], result)];
          return;
        }
        i := i + 1;
      }
    }

    /** `should_trust_confidence`, summing totals and counting rated buckets in one pass. */
    method ShouldTrustConfidence() returns (trust: bool, reason: TrustReason)
      requires Valid()
      ensures (trust, reason) == TrustVerdict(buckets)
    {
      var total := 0;
      var rated := 0;
      var i := 0;
      while i < |buckets|
        invariant 0 <= i <= |buckets|
        invariant total == TotalTrades(buckets[..i])
        invariant rated == RatedBuckets(buckets[..i])
      {
        assert buckets[..i + 1][..i] == buckets[..i];
        total := total + buckets[i].total;
        if buckets[i].total >= 3 {
          rated := rated + 1;
        }
        i := i + 1;
      }
      assert buckets[..i] == buckets;
      if total < 20 {
        return false, InsufficientTrades;
      }
      if rated < 2 {
        return false, NeedMultipleLevels;
      }
      if buckets[3].total >= 3 && buckets[0].total >= 3 {
        if Rate(buckets[3]) > Rate(buckets[0]) + 0.1 {
          return true, HighConfidencePerformsBetter;
        }
      }
      return false, NotPredictive;
    }
  }
}
