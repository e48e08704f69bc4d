/**
 * The trading agent's handling of a model reply (src/trading_agent.py):
 * extracting the JSON text from a reply that may be wrapped in markdown
 * code fences, validating the decoded decision against the configured
 * limits, and the EMA trend label shown in the prompt and the display.
 *
 * Decoding the JSON text itself is not modelled: the validator takes the
 * decoded dictionary.
 */
module TradingAgent {
  import opened Common
  import EdgeFilters

  // ---------------------------------------------------------------- fences

  predicate Occurs(s: string, pat: string, i: nat)
  {
    i + |pat| <= |s| && s[i..i + |pat|] == pat
  }

  /** The first occurrence of `pat` at or after `i`. */
  function FindFrom(s: string, pat: string, i: nat): (r: Option<nat>)
    requires i <= |s|
    ensures r.Some? ==> i <= r.value && Occurs(s, pat, r.value) &&
                        forall j :: i <= j < r.value ==> !Occurs(s, pat, j)
    ensures r.None? ==> forall j :: i <= j <= |s| ==> !Occurs(s, pat, j)
    decreases |s| - i
  {
    if Occurs(s, pat, i) then Some(i)
    else if i == |s| then None
    else FindFrom(s, pat, i + 1)
  }

  /** Python `sep in s`. */
  predicate Contains(s: string, sep: string)
  {
    FindFrom(s, sep, 0).Some?
  }

  /** Python `s.split(sep)[0]`. */
  function BeforeFirst(s: string, sep: string): (r: string)
    ensures |r| <= |s| && r == s[..|r|]
  {
    match FindFrom(s, sep, 0)
    case Some(k) => s[..k]
    case None => s
  }

  /** Python `s.split(sep)[1]` for a `sep` that occurs in `s`. */
  function SecondPiece(s: string, sep: string): string
    requires Contains(s, sep)
  {
    PieceAfter(s, sep, FindFrom(s, sep, 0).value)
  }

  /** The text after the occurrence of `sep` at `k`, up to the next `sep`. */
  function PieceAfter(s: string, sep: string, k: nat): string
    requires k + |sep| <= |s|
  {
    BeforeFirst(s[k + |sep|..], sep)
  }

  const JsonFence := "```json"
  const Fence := "```"

  /** The fence-stripping part of `parse_claude_response`. */
  function ExtractJson(response: string): string
  {
    Unfence(Strip(response))
  }

  /** The cut at the fences, applied to the stripped reply. */
  function Unfence(text: string): string
  {
    if Contains(text, JsonFence) then Strip(BeforeFirst(SecondPiece(text, JsonFence), Fence))
    else if Contains(text, Fence) then Strip(SecondPiece(text, Fence))
    else text
  }

  /** An occurrence of "```json" starts with an occurrence of "```". */
  lemma JsonFenceIsFence(s: string, j: nat)
    requires Occurs(s, JsonFence, j)
    ensures Occurs(s, Fence, j)
  {
    assert s[j..j + 3] == s[j..j + 7][..3];
  }

  /** The first fence in `s` lies at or before the first "```json" fence. */
  lemma FenceNotAfterJsonFence(s: string)
    requires FindFrom(s, JsonFence, 0).Some?
    ensures FindFrom(s, Fence, 0).Some? && FindFrom(s, Fence, 0).value <= FindFrom(s, JsonFence, 0).value
  {
    JsonFenceIsFence(s, FindFrom(s, JsonFence, 0).value);
  }

  /** The text before the end of `s` or the first fence. */
  function UpToFence(s: string): (r: string)
  {
    BeforeFirst(s, Fence)
  }

  const FourTicks := "````"

  /**
   * With a "```json" fence, the result is the stripped text between the
   * first "```json", at `i`, and the next "```" (or the end). This assumes no run of
   * four backticks: there, a fence overlapping the next "```json" is not seen.
   */
  lemma ExtractJsonFenced(response: string, i: nat)
    requires FindFrom(Strip(response), JsonFence, 0) == Some(i) && !Contains(Strip(response), FourTicks)
    ensures ExtractJson(response) == Strip(UpToFence(Strip(response)[i + 7..]))
  {
    UnfenceJson(Strip(response), i);
  }

  lemma UnfenceJson(text: string, i: nat)
    requires FindFrom(text, JsonFence, 0) == Some(i) && !Contains(text, FourTicks)
    ensures Unfence(text) == Strip(UpToFence(text[i + 7..]))
  {
    var rest := text[i + 7..];
    NoFourTicksAfter(text, i + 7);
    SecondPieceAt(text, JsonFence, i);
    CutTwice(rest);
  }

  /**
   * With only plain fences, the result is the stripped text between the
   * first fence, at `i`, and the next one (or the end).
   */
  lemma ExtractPlainFenced(response: string, i: nat)
    requires !Contains(Strip(response), JsonFence) && FindFrom(Strip(response), Fence, 0) == Some(i)
    ensures ExtractJson(response) == Strip(UpToFence(Strip(response)[i + 3..]))
  {
    UnfencePlain(Strip(response), i);
  }

  lemma UnfencePlain(text: string, i: nat)
    requires !Contains(text, JsonFence) && FindFrom(text, Fence, 0) == Some(i)
    ensures Unfence(text) == Strip(UpToFence(text[i + 3..]))
  {
    assert Unfence(text) == Strip(SecondPiece(text, Fence));
    SecondPieceAt(text, Fence, i);
  }

  /** `s.split(sep)[1]` is the text after the first `sep`, up to the next one. */
  lemma SecondPieceAt(s: string, sep: string, i: nat)
    requires FindFrom(s, sep, 0) == Some(i)
    ensures SecondPiece(s, sep) == PieceAfter(s, sep, i)
  {
  }

  /** Without any fence, the result is the stripped reply. */
  lemma ExtractUnfenced(response: string)
    requires !Contains(Strip(response), Fence)
    ensures ExtractJson(response) == Strip(response)
  {
    if Contains(Strip(response), JsonFence) {
      FenceNotAfterJsonFence(Strip(response));
    }
  }

  /**
   * Round trip: a body without backticks wrapped in a "```json" fence is
   * read back as the stripped body.
   */
  lemma FencedRoundTrip(body: string)
    requires forall j :: 0 <= j < |body| ==> body[j] != '`'
    ensures ExtractJson(JsonFence + body + Fence) == Strip(body)
  {
    var s := JsonFence + body + Fence;
    FencedHasNoFourTicks(body);
    FencedOpens(body);
    FencedBody(body);
    FencedIsStripped(body);
    StrippedExtract(s);
    RoundTripAt(body, s);
  }

  /** On a reply with no surrounding whitespace, extraction is the cut at the fences. */
  lemma StrippedExtract(s: string)
    requires Strip(s) == s
    ensures ExtractJson(s) == Unfence(s)
  {
  }

  lemma RoundTripAt(body: string, s: string)
    requires |s| >= 7 && FindFrom(s, JsonFence, 0) == Some(0) && !Contains(s, FourTicks)
    requires UpToFence(s[7..]) == body
    ensures Unfence(s) == Strip(body)
  {
    UnfenceJson(s, 0);
  }

  /** A fenced body starts and ends with a backtick, so stripping keeps it. */
  lemma FencedIsStripped(body: string)
    ensures Strip(JsonFence + body + Fence) == JsonFence + body + Fence
  {
    var s := JsonFence + body + Fence;
    assert s[0] == '`' && s[|s| - 1] == '`';
    assert TrimLeft(s) == s;
    assert TrimRight(s) == s;
  }

  /** A body without backticks between the fences leaves no run of four backticks. */
  lemma FencedHasNoFourTicks(body: string)
    requires forall j :: 0 <= j < |body| ==> body[j] != '`'
    ensures !Contains(JsonFence + body + Fence, FourTicks)
  {
    var s := JsonFence + body + Fence;
    forall j | 0 <= j <= |s|
      ensures !Occurs(s, FourTicks, j)
    {
      if j + 4 <= |s| {
        var w := s[j..j + 4];
        if j <= 3 {
          assert w[3 - j] == s[3] == JsonFence[3] == 'j';
        } else if j < 7 {
          assert w[0] == s[j] == JsonFence[j] != '`';
        } else {
          assert j - 7 < |body|;
          assert w[0] == s[j] == body[j - 7];
        }
        assert w != FourTicks;
      }
    }
    FindNoneFrom(s, FourTicks, 0);
  }

  /** The first "```json" of a fenced body is the opening one. */
  lemma FencedOpens(body: string)
    ensures FindFrom(JsonFence + body + Fence, JsonFence, 0) == Some(0)
  {
    var s := JsonFence + body + Fence;
    assert s[..7] == JsonFence;
    FindFirstIs(s, JsonFence, 0);
  }

  /** After the opening fence, the text up to the next fence is the body. */
  lemma FencedBody(body: string)
    requires forall j :: 0 <= j < |body| ==> body[j] != '`'
    ensures UpToFence((JsonFence + body + Fence)[7..]) == body
  {
    var rest := (JsonFence + body + Fence)[7..];
    assert rest == body + Fence;
    forall j | 0 <= j < |body|
      ensures !Occurs(rest, Fence, j)
    {
      assert rest[j] == body[j];
    }
    assert rest[|body|..|body| + 3] == Fence;
    FindFirstIs(rest, Fence, |body|);
    assert rest[..|body|] == body;
  }

  /** No run of four backticks in `text` means none in any suffix of it. */
  lemma NoFourTicksAfter(text: string, k: nat)
    requires k <= |text| && !Contains(text, FourTicks)
    ensures forall j :: 0 <= j <= |text[k..]| ==> !Occurs(text[k..], FourTicks, j)
  {
    var rest := text[k..];
    forall j | 0 <= j <= |rest|
      ensures !Occurs(rest, FourTicks, j)
    {
      assert !Occurs(text, FourTicks, k + j);
      if j + 4 <= |rest| {
        assert text[k + j..k + j + 4] == rest[j..j + 4];
      }
    }
  }

  /**
   * Without four backticks in a row, cutting at the first "```json" and
   * then at the first "```" is cutting at the first "```".
   */
  lemma CutTwice(rest: string)
    requires forall j :: 0 <= j <= |rest| ==> !Occurs(rest, FourTicks, j)
    ensures BeforeFirst(BeforeFirst(rest, JsonFence), Fence) == BeforeFirst(rest, Fence)
  {
    var piece := BeforeFirst(rest, JsonFence);
    match FindFrom(rest, JsonFence, 0)
    case None =>
    case Some(k) =>
      FenceNotAfterJsonFence(rest);
      var f := FindFrom(rest, Fence, 0).value;
      assert piece == rest[..k];
      forall j | 0 <= j <= k ensures Occurs(piece, Fence, j) <==> j + 3 <= k && Occurs(rest, Fence, j) {
        PrefixOccurs(rest, k, Fence, j);
      }
      if f < k {
        JsonFenceIsFence(rest, k);
        if k < f + 3 {
          FencesOverlap(rest, f, k);
        }
        FindFirstIs(piece, Fence, f);
      } else {
        FindNone(piece, Fence);
      }
  }

  /** An occurrence inside a prefix is an occurrence in the whole. */
  lemma PrefixOccurs(s: string, k: nat, pat: string, j: nat)
    requires k <= |s|
    ensures Occurs(s[..k], pat, j) <==> j + |pat| <= k && Occurs(s, pat, j)
  {
    if j + |pat| <= k {
      assert s[..k][j..j + |pat|] == s[j..j + |pat|];
    }
  }

  /** Two fences less than three characters apart make four backticks in a row. */
  lemma FencesOverlap(s: string, f: nat, k: nat)
    requires Occurs(s, Fence, f) && Occurs(s, Fence, k) && f < k < f + 3
    ensures Occurs(s, FourTicks, f)
  {
    forall t | f <= t < f + 4 ensures s[t] == '`' {
      if t < f + 3 { assert s[t] == s[f..f + 3][t - f]; }
      else { assert s[t] == s[k..k + 3][t - k]; }
    }
    assert s[f..f + 4] == FourTicks;
  }

  lemma {:induction false} FindFirstIsFrom(s: string, pat: string, i: nat, f: nat)
    requires i <= f && Occurs(s, pat, f)
    requires forall j :: i <= j < f ==> !Occurs(s, pat, j)
    ensures FindFrom(s, pat, i) == Some(f)
    decreases f - i
  {
    if i < f {
      FindFirstIsFrom(s, pat, i + 1, f);
    }
  }

  lemma FindFirstIs(s: string, pat: string, f: nat)
    requires Occurs(s, pat, f)
    requires forall j :: 0 <= j < f ==> !Occurs(s, pat, j)
    ensures FindFrom(s, pat, 0) == Some(f)
  {
    FindFirstIsFrom(s, pat, 0, f);
  }

  lemma {:induction false} FindNoneFrom(s: string, pat: string, i: nat)
    requires i <= |s|
    requires forall j :: i <= j <= |s| ==> !Occurs(s, pat, j)
    ensures FindFrom(s, pat, i).None?
    decreases |s| - i
  {
    if i < |s| {
      FindNoneFrom(s, pat, i + 1);
    }
  }

  lemma FindNone(s: string, pat: string)
    requires forall j :: 0 <= j <= |s| ==> !Occurs(s, pat, j)
    ensures FindFrom(s, pat, 0).None?
  {
    FindNoneFrom(s, pat, 0);
  }

  // ---------------------------------------------------------------- decision

  /** The limits read from the configuration. */
  datatype AgentLimits = AgentLimits(minRiskReward: real, confidenceThreshold: real,
                                     stopLossMin: real, stopLossMax: real)

  datatype AgentRejection =
    | MissingBias
    | MissingField(field: string)
    | SetupNotDict(setup: string)
    | MissingSetupField(setup: string, field: string)
    | StopTooTight(distance: real)
    | StopTooWide(distance: real)
    | InvalidLongStop
    | InvalidShortStop
    | RiskRewardTooLow(rr: real)
    | ConfidenceTooLow(confidence: real)

  /** Valid, invalid with the first failure, or a `TypeError` from a non-numeric price, ratio or confidence. */
  datatype AgentCheck = Valid | Invalid(why: AgentRejection) | RaisesTypeError

  const TopFields: seq<string> := ["primary_decision", "long_setup", "short_setup", "overall_reasoning"]
  const SetupFields: seq<string> := ["entry", "stop", "target", "risk_reward", "confidence", "reasoning"]

  /** The first of `fields[i..]` not in `d`, or |fields|. */
  function FirstMissing(d: map<string, Value>, fields: seq<string>, i: nat): (k: nat)
    requires i <= |fields|
    ensures i <= k <= |fields|
    ensures forall j :: i <= j < k ==> fields[j] in d
    ensures k < |fields| ==> fields[k] !in d
    decreases |fields| - i
  {
    if i == |fields| || fields[i] !in d then i else FirstMissing(d, fields, i + 1)
  }

  /** The shape check of one setup. */
  function SetupShape(d: map<string, Value>, name: string): (r: Option<AgentRejection>)
    requires name in d
    ensures r.None? <==> d[name].VDict? && HasSetupFields(d[name].d)
  {
    var s := d[name];
    if !s.VDict? then Some(SetupNotDict(name))
    else
      var k := FirstMissing(s.d, SetupFields, 0);
      if k < |SetupFields| then Some(MissingSetupField(name, SetupFields[k])) else None
  }

  predicate HasSetupFields(m: map<string, Value>)
  {
    "entry" in m && "stop" in m && "target" in m && "risk_reward" in m && "confidence" in m && "reasoning" in m
  }

  predicate HasTopFields(n: map<string, Value>)
  {
    "primary_decision" in n && "long_setup" in n && "short_setup" in n && "overall_reasoning" in n
  }

  /** The in-place write of `market_bias` into `overall_bias` when only the former is present. */
  function NormalizeBias(d: map<string, Value>): (r: map<string, Value>)
    ensures "overall_bias" in d ==> r == d
    ensures "overall_bias" !in d && "market_bias" in d ==> r == d["overall_bias" := d["market_bias"]]
    ensures "overall_bias" !in d && "market_bias" !in d ==> r == d
  {
    if "market_bias" in d && "overall_bias" !in d then d["overall_bias" := d["market_bias"]] else d
  }

  /** The price checks of the chosen setup, in order. */
  function PriceChecks(direction: Value, setup: map<string, Value>, lim: AgentLimits): AgentCheck
    requires HasSetupFields(setup)
  {
    var e, s := AsNumber(setup["entry"]), AsNumber(setup["stop"]);
    if e.None? || s.None? then RaisesTypeError
    else
      var entry, stop := e.value, s.value;
      var dist := Abs(entry - stop);
      if dist < lim.stopLossMin then Invalid(StopTooTight(dist))
      else if dist > lim.stopLossMax then Invalid(StopTooWide(dist))
      else if direction == VStr("LONG") && stop >= entry then Invalid(InvalidLongStop)
      else if direction == VStr("SHORT") && stop <= entry then Invalid(InvalidShortStop)
      else match AsNumber(setup["risk_reward"])
        case None => RaisesTypeError
        case Some(rr) =>
          if rr < lim.minRiskReward then Invalid(RiskRewardTooLow(rr))
          else match AsNumber(setup["confidence"])
            case None => RaisesTypeError
            case Some(c) => if c < lim.confidenceThreshold then Invalid(ConfidenceTooLow(c)) else Valid
  }

  /**
   * `validate_decision`: the verdict and the decision dictionary as the
   * caller sees it afterwards (with `overall_bias` filled in).
   */
  function ValidateDecision(d: map<string, Value>, lim: AgentLimits): (r: (AgentCheck, map<string, Value>))
    ensures r.1 == NormalizeBias(d)
  {
    if "overall_bias" !in d && "market_bias" !in d then (Invalid(MissingBias), d)
    else
      var n := NormalizeBias(d);
      var k := FirstMissing(n, TopFields, 0);
      if k < |TopFields| then (Invalid(MissingField(TopFields[k])), n)
      else
        assert HasTopFields(n) by { assert forall j :: 0 <= j < 4 ==> TopFields[j] in n; }
        match SetupShape(n, "long_setup")
        case Some(why) => (Invalid(why), n)
        case None => match SetupShape(n, "short_setup")
          case Some(why) => (Invalid(why), n)
          case None =>
            if n["primary_decision"] == VStr("NONE") then (Valid, n)
            else
              var chosen := if n["primary_decision"] == VStr("LONG") then n["long_setup"] else n["short_setup"];
              (PriceChecks(n["primary_decision"], chosen.d, lim), n)
  }

  /** The decision has every required field and two setups with all six of theirs. */
  predicate WellShaped(n: map<string, Value>)
  {
    HasTopFields(n) &&
    n["long_setup"].VDict? && HasSetupFields(n["long_setup"].d) &&
    n["short_setup"].VDict? && HasSetupFields(n["short_setup"].d)
  }

  /**
   * A decision whose primary choice is NONE is valid on its shape alone,
   * whatever its prices.
   */
  lemma NoneValidOnShape(d: map<string, Value>, lim: AgentLimits)
    requires "overall_bias" in d || "market_bias" in d
    requires WellShaped(NormalizeBias(d))
    requires NormalizeBias(d)["primary_decision"] == VStr("NONE")
    ensures ValidateDecision(d, lim).0 == Valid
  {
    var n := NormalizeBias(d);
    assert FirstMissing(n, TopFields, 0) == |TopFields|;
  }

  /**
   * A trade decision is valid exactly when it is well shaped and its chosen
   * setup (the long one for LONG, the short one for anything else) has a
   * stop distance in [min, max], a stop on the correct side for a literal
   * LONG or SHORT, a reported risk/reward of at least the minimum (it is not
   * recomputed from the prices) and a confidence of at least the threshold.
   */
  lemma TradeValidIff(d: map<string, Value>, lim: AgentLimits)
    requires "overall_bias" in d || "market_bias" in d
    requires !WellShaped(NormalizeBias(d)) || NormalizeBias(d)["primary_decision"] != VStr("NONE")
    ensures var n := NormalizeBias(d);
            ValidateDecision(d, lim).0 == Valid <==>
              WellShaped(n) &&
              var dir := n["primary_decision"];
              var s := (if dir == VStr("LONG") then n["long_setup"] else n["short_setup"]).d;
              AsNumber(s["entry"]).Some? && AsNumber(s["stop"]).Some? &&
              AsNumber(s["risk_reward"]).Some? && AsNumber(s["confidence"]).Some? &&
              var entry, stop := AsNumber(s["entry"]).value, AsNumber(s["stop"]).value;
              lim.stopLossMin <= Abs(entry - stop) <= lim.stopLossMax &&
              (dir == VStr("LONG") ==> stop < entry) && (dir == VStr("SHORT") ==> stop > entry) &&
              AsNumber(s["risk_reward"]).value >= lim.minRiskReward &&
              AsNumber(s["confidence"]).value >= lim.confidenceThreshold
  {
    var n := NormalizeBias(d);
    if WellShaped(n) {
      assert FirstMissing(n, TopFields, 0) == |TopFields|;
    } else {
      var k := FirstMissing(n, TopFields, 0);
      if k == |TopFields| {
        assert SetupShape(n, "long_setup").Some? || SetupShape(n, "short_setup").Some?;
      }
    }
  }

  /** Without either bias field the decision is refused first and left untouched. */
  lemma MissingBiasFirst(d: map<string, Value>, lim: AgentLimits)
    requires "overall_bias" !in d && "market_bias" !in d
    ensures ValidateDecision(d, lim) == (Invalid(MissingBias), d)
  {
  }

  // ---------------------------------------------------------------- trend

  datatype TrendLabel = StrongUp | StrongDown | WeakUp | WeakDown | Neutral

  /** The EMA trend label of the prompt and the display. */
  function Trend(ema21: real, ema75: real, ema150: real): (t: TrendLabel)
    ensures t == StrongUp <==> ema21 > ema75 > ema150
    ensures t == StrongDown <==> ema21 < ema75 < ema150
    ensures t == WeakUp <==> ema21 > ema75 && !(ema75 > ema150)
    ensures t == WeakDown <==> ema21 < ema75 && !(ema75 < ema150)
    ensures t == Neutral <==> ema21 == ema75
  {
    if ema21 > ema75 > ema150 then StrongUp
    else if ema21 < ema75 < ema150 then StrongDown
    else if ema21 > ema75 then WeakUp
    else if ema21 < ema75 then WeakDown
    else Neutral
  }

  /**
   * The agent's "strong" label and the edge filters' regime agree: a strong
   * up label is exactly an up or strong-up regime (at any price), and a
   * weak or neutral label is a ranging regime.
   */
  lemma TrendMatchesRegime(ema21: real, ema75: real, ema150: real, price: real)
    ensures var t := Trend(ema21, ema75, ema150);
            var g := EdgeFilters.DetectRegime(ema21, ema75, ema150, price).regime;
            (t == StrongUp <==> g in {EdgeFilters.Uptrend, EdgeFilters.StrongUptrend}) &&
            (t == StrongDown <==> g in {EdgeFilters.Downtrend, EdgeFilters.StrongDowntrend}) &&
            (t in {WeakUp, WeakDown, Neutral} <==> g == EdgeFilters.Ranging)
  {
  }
}
