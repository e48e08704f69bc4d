/**
 * The last gate before a trade signal is written for the execution
 * platform (src/signal_generator.py, `validate_decision`): the decision
 * dictionary must name LONG or SHORT, carry numeric entry, stop and target
 * on the right sides, honour the 5-point target buffer when the raw target
 * is given, and reach a reward/risk of 1.3. The first failed rule is
 * reported.
 */
module SignalGenerator {
  import opened Common

  datatype Rejection =
    | InvalidDecisionType
    | MissingField(field: string)
    | InvalidFieldValue(field: string)
    | LongStopNotBelowEntry | LongTargetNotAboveEntry
    | ShortStopNotAboveEntry | ShortTargetNotBelowEntry
    | LongBufferError | ShortBufferError
    | ZeroRisk
    | RiskRewardTooLow(ratio: real)

  /** Accepted, rejected with the first failure, or a `TypeError` from arithmetic on a non-numeric raw target. */
  datatype SignalCheck = Accepted | Rejected(why: Rejection) | RaisesTypeError

  const RequiredFields: seq<string> := ["entry", "stop", "target"]

  const MinRiskReward: real := 1.3

  predicate NumericField(d: map<string, Value>, f: string)
  {
    f in d && AsNumber(d[f]).Some?
  }

  /** Index of the first of `fields[i..]` that is missing or not a number (a bool counts as one), or |fields|. */
  function FirstBadFrom(d: map<string, Value>, fields: seq<string>, i: nat): (k: nat)
    requires i <= |fields|
    ensures i <= k <= |fields|
    ensures forall j :: i <= j < k ==> NumericField(d, fields[j])
    ensures k < |fields| ==> !NumericField(d, fields[k])
    decreases |fields| - i
  {
    if i == |fields| || !NumericField(d, fields[i]) then i else FirstBadFrom(d, fields, i + 1)
  }

  /** The rejection of the first bad field: missing, else not numeric. */
  function FirstBadField(d: map<string, Value>, fields: seq<string>): (r: Option<Rejection>)
    ensures r.None? <==> forall k :: 0 <= k < |fields| ==> NumericField(d, fields[k])
  {
    var k := FirstBadFrom(d, fields, 0);
    if k == |fields| then None
    else if fields[k] !in d then Some(MissingField(fields[k]))
    else Some(InvalidFieldValue(fields[k]))
  }

  /** The direction-side rule. */
  function SideRejection(direction: string, entry: real, stop: real, target: real): (r: Option<Rejection>)
    ensures direction == "LONG" ==> (r.None? <==> stop < entry < target)
    ensures direction == "SHORT" ==> (r.None? <==> target < entry < stop)
  {
    if direction == "LONG" then
      if stop >= entry then Some(LongStopNotBelowEntry)
      else if target <= entry then Some(LongTargetNotAboveEntry)
      else None
    else if direction == "SHORT" then
      if stop <= entry then Some(ShortStopNotAboveEntry)
      else if target >= entry then Some(ShortTargetNotBelowEntry)
      else None
    else None
  }

  /** What the buffer rule makes of a present, non-null raw target: a rejection, a pass, or a `TypeError`. */
  function BufferCheck(direction: string, target: real, raw: Value): SignalCheck
  {
    match AsNumber(raw)
    case None => RaisesTypeError
    case Some(rt) =>
      if direction == "LONG" && Abs(target - (rt - 5.0)) > 0.1 then Rejected(LongBufferError)
      else if direction == "SHORT" && Abs(target - (rt + 5.0)) > 0.1 then Rejected(ShortBufferError)
      else Accepted
  }

  /** `validate_decision`. */
  function ValidateDecision(d: map<string, Value>): SignalCheck
  {
    if !("decision" in d && d["decision"] in {VStr("LONG"), VStr("SHORT")}) then Rejected(InvalidDecisionType)
    else
      match FirstBadField(d, RequiredFields)
      case Some(why) => Rejected(why)
      case None =>
        var direction := d["decision"].s;
        var entry, stop, target := AsNumber(d["entry"]).value, AsNumber(d["stop"]).value,
                                   AsNumber(d["target"]).value;
        match SideRejection(direction, entry, stop, target)
        case Some(why) => Rejected(why)
        case None =>
          var buffer := if "raw_target" in d && d["raw_target"] != VNull
                        then BufferCheck(direction, target, d["raw_target"]) else Accepted;
          if buffer != Accepted then buffer
          else
            var risk, reward := Abs(entry - stop), Abs(target - entry);
            if risk == 0.0 then Rejected(ZeroRisk)
            else if reward / risk < MinRiskReward then Rejected(RiskRewardTooLow(reward / risk))
            else Accepted
  }

  /** The numeric value of a field known to be numeric. */
  function Num(d: map<string, Value>, f: string): real
  {
    if f in d && AsNumber(d[f]).Some? then AsNumber(d[f]).value else 0.0
  }

  lemma RatioAtLeast(reward: real, risk: real, k: real)
    requires risk > 0.0
    ensures reward / risk >= k <==> reward >= k * risk
  {
    assert reward / risk * risk == reward;
    if reward / risk >= k {
      assert reward / risk * risk >= k * risk;
    }
  }

  /**
   * A decision is accepted exactly when it names LONG or SHORT, all three
   * prices are numbers on the correct sides of entry, a present raw target
   * is a number with the target within 0.1 of it less (LONG) or plus
   * (SHORT) five points, and the reward is at least 1.3 times the risk.
   */
  lemma AcceptedIff(d: map<string, Value>)
    ensures ValidateDecision(d) == Accepted <==>
              "decision" in d && d["decision"] in {VStr("LONG"), VStr("SHORT")} &&
              (forall k :: 0 <= k < 3 ==> NumericField(d, RequiredFields[k])) &&
              var long := d["decision"] == VStr("LONG");
              var entry, stop, target := Num(d, "entry"), Num(d, "stop"), Num(d, "target");
              (if long then stop < entry < target else target < entry < stop) &&
              ("raw_target" in d && d["raw_target"] != VNull ==>
                 AsNumber(d["raw_target"]).Some? &&
                 Abs(target - (AsNumber(d["raw_target"]).value + (if long then -5.0 else 5.0))) <= 0.1) &&
              Abs(target - entry) >= MinRiskReward * Abs(entry - stop)
  {
    if "decision" in d && d["decision"] in {VStr("LONG"), VStr("SHORT")} && FirstBadField(d, RequiredFields).None? {
      var entry, stop := Num(d, "entry"), Num(d, "stop");
      if entry != stop {
        RatioAtLeast(Abs(Num(d, "target") - entry), Abs(entry - stop), MinRiskReward);
      }
    }
  }

  /** The zero-risk rejection can never be reported: entry == stop already fails the side rule. */
  lemma ZeroRiskUnreachable(d: map<string, Value>)
    ensures ValidateDecision(d) != Rejected(ZeroRisk)
  {
  }

  /**
   * Rules are reported in order: when a LONG/SHORT decision has a missing or
   * non-numeric price, the rejection names the first such field of entry,
   * stop, target, before any price relationship is looked at.
   */
  lemma FieldsCheckedFirst(d: map<string, Value>)
    requires "decision" in d && d["decision"] in {VStr("LONG"), VStr("SHORT")}
    requires !(forall k :: 0 <= k < 3 ==> NumericField(d, RequiredFields[k]))
    ensures exists k :: 0 <= k < 3 && (forall j :: 0 <= j < k ==> NumericField(d, RequiredFields[j])) &&
              ValidateDecision(d) == Rejected(if RequiredFields[k] !in d then MissingField(RequiredFields[k])
                                              else InvalidFieldValue(RequiredFields[k]))
  {
    var k := FirstBadFrom(d, RequiredFields, 0);
    assert k < 3;
  }

  /** An accepted LONG with a raw target lies 5 points inside it, within the 0.1 tolerance. */
  lemma AcceptedLongBuffer(d: map<string, Value>)
    requires ValidateDecision(d) == Accepted
    requires d["decision"] == VStr("LONG") && "raw_target" in d && d["raw_target"] != VNull
    ensures AsNumber(d["raw_target"]).Some?
    ensures var rt := AsNumber(d["raw_target"]).value;
            rt - 5.1 <= Num(d, "target") <= rt - 4.9 && Num(d, "target") > Num(d, "entry")
  {
    AcceptedIff(d);
  }
}
