/**
 * Edge filters (src/edge_filters.py): trading-session classification,
 * market-regime detection from three EMAs, price-action confirmation at a
 * gap zone, and the 0-100 setup-quality score with its grade, size
 * multiplier and TAKE / WAIT / SKIP recommendation.
 *
 * The clock is a parameter: `secondOfDay` is the Eastern-time time of day
 * in seconds. Zone bounds and EMAs that the source reads from dictionaries
 * with a default of 0 are plain parameters here.
 */
module EdgeFilters {
  import opened Common

  datatype MarketRegime = StrongUptrend | Uptrend | Ranging | Downtrend | StrongDowntrend | Volatile

  datatype Session = Premarket | OpenDrive | Morning | Lunch | Afternoon | Close | AfterHours

  function Hm(h: int, m: int): int { (h * 60 + m) * 60 }

  /** The session windows, half open, in dictionary order. */
  const Windows: seq<(Session, int, int)> := [
    (Premarket, Hm(4, 0), Hm(9, 30)),
    (OpenDrive, Hm(9, 30), Hm(10, 0)),
    (Morning, Hm(10, 0), Hm(12, 0)),
    (Lunch, Hm(12, 0), Hm(14, 0)),
    (Afternoon, Hm(14, 0), Hm(15, 30)),
    (Close, Hm(15, 30), Hm(16, 0)),
    (AfterHours, Hm(16, 0), Hm(20, 0))
  ]

  /** The first window in `ws` containing `t`, or AFTER_HOURS. */
  function FirstWindow(ws: seq<(Session, int, int)>, t: int): Session
    decreases |ws|
  {
    if ws == [] then AfterHours
    else if ws[0].1 <= t < ws[0].2 then ws[0].0
    else FirstWindow(ws[1..], t)
  }

  /** `get_current_session`. */
  function CurrentSession(secondOfDay: int): Session
  {
    FirstWindow(Windows, secondOfDay)
  }

  /**
   * The session is the window [start, end) holding the time; before 04:00
   * and from 20:00 on, it falls back to AFTER_HOURS.
   */
  lemma {:induction false} SessionWindows(t: int)
    ensures var s := CurrentSession(t);
            (s == Premarket <==> Hm(4, 0) <= t < Hm(9, 30)) &&
            (s == OpenDrive <==> Hm(9, 30) <= t < Hm(10, 0)) &&
            (s == Morning <==> Hm(10, 0) <= t < Hm(12, 0)) &&
            (s == Lunch <==> Hm(12, 0) <= t < Hm(14, 0)) &&
            (s == Afternoon <==> Hm(14, 0) <= t < Hm(15, 30)) &&
            (s == Close <==> Hm(15, 30) <= t < Hm(16, 0)) &&
            (s == AfterHours <==> t < Hm(4, 0) || Hm(16, 0) <= t)
  {
    var w := Windows;
    assert w[1..][1..][1..][1..][1..][1..][1..] == [];
  }

  datatype RegimeReading = RegimeReading(regime: MarketRegime, strength: int)

  /** `detect_market_regime`: aligned EMAs give a trend; a wide 21/75 spread with price beyond them a strong one. */
  function DetectRegime(ema21: real, ema75: real, ema150: real, price: real): (r: RegimeReading)
    ensures r.regime != Volatile
    ensures r.regime == StrongUptrend <==> price > ema21 > ema75 > ema150 && Abs(ema21 - ema75) > 20.0
    ensures r.regime == StrongDowntrend <==> price < ema21 < ema75 < ema150 && Abs(ema21 - ema75) > 20.0
    ensures r.regime == Uptrend <==> ema21 > ema75 > ema150 && !(price > ema21 && Abs(ema21 - ema75) > 20.0)
    ensures r.regime == Downtrend <==> ema21 < ema75 < ema150 && !(price < ema21 && Abs(ema21 - ema75) > 20.0)
    ensures r.regime == Ranging <==> !(ema21 > ema75 > ema150) && !(ema21 < ema75 < ema150)
    ensures r.strength == (if r.regime in {StrongUptrend, StrongDowntrend} then 90
                           else if r.regime == Ranging then 50 else 70)
  {
    var bull := ema21 > ema75 > ema150;
    var bear := ema21 < ema75 < ema150;
    var aboveAll := price > ema21 > ema75 > ema150;
    var belowAll := price < ema21 < ema75 < ema150;
    var spread := Abs(ema21 - ema75);
    if aboveAll && spread > 20.0 then RegimeReading(StrongUptrend, 90)
    else if belowAll && spread > 20.0 then RegimeReading(StrongDowntrend, 90)
    else if bull then RegimeReading(Uptrend, 70)
    else if bear then RegimeReading(Downtrend, 70)
    else RegimeReading(Ranging, 50)
  }

  datatype ConfirmReason =
    | InsufficientData | NotAtZone | ZeroRangeBar
    | HammerRejection | BullishEngulfing | StrongBullishMomentum | FailedBreakdown
    | ShootingStarRejection | BearishEngulfing | StrongBearishMomentum | FailedBreakout
    | NoPattern

  datatype Confirmation = Confirmation(confirmed: bool, reason: ConfirmReason, boost: real)

  /** Is `price` inside the zone or within twice its height of the zone's midpoint. */
  predicate AtZone(price: real, top: real, bottom: real)
  {
    (bottom <= price <= top) || Abs(price - (top + bottom) / 2.0) < (top - bottom) * 2.0
  }

  /** The body's share of the bar's range. */
  function BodyRatio(b: Bar): real
    requires b.high - b.low != 0.0
  {
    Abs(b.close - b.open) / (b.high - b.low)
  }

  /** A hammer: the wick below the body is over 60% of the range and the body under 30%. */
  predicate Hammer(b: Bar)
    requires b.high - b.low != 0.0
  {
    Min(b.open, b.close) - b.low > (b.high - b.low) * 0.6 && BodyRatio(b) < 0.3
  }

  /** A shooting star: the wick above the body is over 60% of the range and the body under 30%. */
  predicate ShootingStar(b: Bar)
    requires b.high - b.low != 0.0
  {
    b.high - Max(b.open, b.close) > (b.high - b.low) * 0.6 && BodyRatio(b) < 0.3
  }

  /** An up bar whose body spans the previous bar's whole range. */
  predicate BullishEngulfs(last: Bar, prev: Bar)
  {
    last.open < last.close && prev.high < last.close && last.open < prev.low
  }

  /** A down bar whose body spans the previous bar's whole range. */
  predicate BearishEngulfs(last: Bar, prev: Bar)
  {
    last.close < last.open && last.close < prev.low && prev.high < last.open
  }

  /** An up bar, body over 60% of the range, that stays at or above the zone's bottom. */
  predicate BullishMomentum(b: Bar, bottom: real)
    requires b.high - b.low != 0.0
  {
    b.open < b.close && BodyRatio(b) > 0.6 && bottom <= b.low
  }

  /** A down bar, body over 60% of the range, that stays at or below the zone's top. */
  predicate BearishMomentum(b: Bar, top: real)
    requires b.high - b.low != 0.0
  {
    b.close < b.open && BodyRatio(b) > 0.6 && b.high <= top
  }

  /**
   * The LONG patterns, in order: the result is that of the first of hammer,
   * engulfing, momentum and failed breakdown (low below the zone, close above
   * its bottom) that the bar shows.
   */
  function LongPattern(last: Bar, prev: Bar, bottom: real): (c: Confirmation)
    requires last.high - last.low != 0.0
    ensures c.confirmed <==>
              Hammer(last) || BullishEngulfs(last, prev) || BullishMomentum(last, bottom) ||
              (last.low < bottom < last.close)
    ensures Hammer(last) ==> c == Confirmation(true, HammerRejection, 0.15)
    ensures !Hammer(last) && BullishEngulfs(last, prev) ==> c == Confirmation(true, BullishEngulfing, 0.20)
    ensures !Hammer(last) && !BullishEngulfs(last, prev) && BullishMomentum(last, bottom) ==>
              c == Confirmation(true, StrongBullishMomentum, 0.10)
    ensures (!Hammer(last) && !BullishEngulfs(last, prev) && !BullishMomentum(last, bottom) &&
             last.low < bottom < last.close) ==> c == Confirmation(true, FailedBreakdown, 0.15)
    ensures !c.confirmed ==> c == Confirmation(false, NoPattern, 0.0)
  {
    var range := last.high - last.low;
    var bodyRatio := Abs(last.close - last.open) / range;
    var lowerWick := if last.close > last.open then last.open - last.low else last.close - last.low;
    if lowerWick > range * 0.6 && bodyRatio < 0.3 then Confirmation(true, HammerRejection, 0.15)
    else if last.close > last.open && last.close > prev.high && last.open < prev.low
    then Confirmation(true, BullishEngulfing, 0.20)
    else if last.close > last.open && bodyRatio > 0.6 && last.low >= bottom
    then Confirmation(true, StrongBullishMomentum, 0.10)
    else if last.low < bottom && last.close > bottom then Confirmation(true, FailedBreakdown, 0.15)
    else Confirmation(false, NoPattern, 0.0)
  }

  /**
   * The SHORT patterns, in order: the result is that of the first of
   * shooting star, engulfing, momentum and failed breakout (high above the
   * zone, close below its top) that the bar shows.
   */
  function ShortPattern(last: Bar, prev: Bar, top: real): (c: Confirmation)
    requires last.high - last.low != 0.0
    ensures c.confirmed <==>
              ShootingStar(last) || BearishEngulfs(last, prev) || BearishMomentum(last, top) ||
              (last.close < top < last.high)
    ensures ShootingStar(last) ==> c == Confirmation(true, ShootingStarRejection, 0.15)
    ensures !ShootingStar(last) && BearishEngulfs(last, prev) ==> c == Confirmation(true, BearishEngulfing, 0.20)
    ensures !ShootingStar(last) && !BearishEngulfs(last, prev) && BearishMomentum(last, top) ==>
              c == Confirmation(true, StrongBearishMomentum, 0.10)
    ensures (!ShootingStar(last) && !BearishEngulfs(last, prev) && !BearishMomentum(last, top) &&
             last.close < top < last.high) ==> c == Confirmation(true, FailedBreakout, 0.15)
    ensures !c.confirmed ==> c == Confirmation(false, NoPattern, 0.0)
  {
    var range := last.high - last.low;
    var bodyRatio := Abs(last.close - last.open) / range;
    var upperWick := if last.close > last.open then last.high - last.close else last.high - last.open;
    if upperWick > range * 0.6 && bodyRatio < 0.3 then Confirmation(true, ShootingStarRejection, 0.15)
    else if last.close < last.open && last.close < prev.low && last.open > prev.high
    then Confirmation(true, BearishEngulfing, 0.20)
    else if last.close < last.open && bodyRatio > 0.6 && last.high <= top
    then Confirmation(true, StrongBearishMomentum, 0.10)
    else if last.high > top && last.close < top then Confirmation(true, FailedBreakout, 0.15)
    else Confirmation(false, NoPattern, 0.0)
  }

  /** `check_entry_confirmation`. */
  function EntryConfirmation(direction: string, price: real, top: real, bottom: real, bars: seq<Bar>): (c: Confirmation)
    ensures c.confirmed <==> c.boost > 0.0
    ensures c.boost in {0.0, 0.10, 0.15, 0.20}
    ensures |bars| < 2 ==> c == Confirmation(false, InsufficientData, 0.0)
    ensures |bars| >= 2 && !AtZone(price, top, bottom) ==> c == Confirmation(false, NotAtZone, 0.0)
    ensures |bars| >= 2 && AtZone(price, top, bottom) && bars[|bars| - 1].high == bars[|bars| - 1].low ==>
              c == Confirmation(false, ZeroRangeBar, 0.0)
    ensures direction != "LONG" && direction != "SHORT" ==> !c.confirmed
    ensures |bars| >= 2 && AtZone(price, top, bottom) && bars[|bars| - 1].high != bars[|bars| - 1].low ==>
              (direction == "LONG" ==> c == LongPattern(bars[|bars| - 1], bars[|bars| - 2], bottom)) &&
              (direction == "SHORT" ==> c == ShortPattern(bars[|bars| - 1], bars[|bars| - 2], top))
    ensures c.confirmed && direction == "LONG" ==>
              c.reason in {HammerRejection, BullishEngulfing, StrongBullishMomentum, FailedBreakdown}
    ensures c.confirmed && direction == "SHORT" ==>
              c.reason in {ShootingStarRejection, BearishEngulfing, StrongBearishMomentum, FailedBreakout}
  {
    if |bars| < 2 then Confirmation(false, InsufficientData, 0.0)
    else if !AtZone(price, top, bottom) then Confirmation(false, NotAtZone, 0.0)
    else
      var last, prev := bars[|bars| - 1], bars[|bars| - 2];
      if last.high - last.low == 0.0 then Confirmation(false, ZeroRangeBar, 0.0)
      else if direction == "LONG" then LongPattern(last, prev, bottom)
      else if direction == "SHORT" then ShortPattern(last, prev, top)
      else Confirmation(false, NoPattern, 0.0)
  }

  /** Positive and negative factors, one per scoring component (none for an R/R in [2, 3)). */
  datatype Factor =
    | PrimeSession | GoodSession | LunchChop | VolatileSession | SuboptimalHours
    | AlignedWith(regime: MarketRegime) | RangingRisk | CounterTrend(regime: MarketRegime)
    | EntryConfirmed(reason: ConfirmReason) | NoConfirmation | CannotVerifyConfirmation
    | ExcellentRiskReward(rr: real) | GoodRiskReward(rr: real) | LowRiskReward(rr: real)

  datatype Recommendation = Take | Wait | Skip

  datatype SetupQuality = SetupQuality(score: int, grade: char, edgeFactors: seq<Factor>,
                                       riskFactors: seq<Factor>, recommendation: Recommendation,
                                       adjustedSize: real)

  /** One component's points and the factor it contributes. */
  datatype Component = Component(points: int, edge: seq<Factor>, risk: seq<Factor>)

  function SessionComponent(s: Session): Component
  {
    match s
    case Morning => Component(25, [PrimeSession], [])
    case Afternoon => Component(20, [GoodSession], [])
    case Lunch => Component(7, [], [LunchChop])
    case OpenDrive => Component(12, [], [VolatileSession])
    case Close => Component(12, [], [VolatileSession])
    case _ => Component(5, [], [SuboptimalHours])
  }

  function RegimeComponent(direction: string, regime: MarketRegime): Component
  {
    var aligned := (direction == "LONG" && regime in {Uptrend, StrongUptrend}) ||
                   (direction == "SHORT" && regime in {Downtrend, StrongDowntrend});
    if aligned then Component(25, [AlignedWith(regime)], [])
    else if regime == Ranging then Component(10, [], [RangingRisk])
    else Component(5, [], [CounterTrend(regime)])
  }

  function ConfirmationComponent(direction: string, entry: real, top: real, bottom: real, bars: seq<Bar>): Component
  {
    if bars != [] then
      var c := EntryConfirmation(direction, entry, top, bottom, bars);
      if c.confirmed then Component(25, [EntryConfirmed(c.reason)], [])
      else Component(8, [], [NoConfirmation])
    else Component(10, [], [CannotVerifyConfirmation])
  }

  function RiskRewardComponent(entry: real, stop: real, target: real): Component
  {
    var risk := Abs(entry - stop);
    var rr := if risk > 0.0 then Abs(target - entry) / risk else 0.0;
    if rr >= 4.0 then Component(25, [ExcellentRiskReward(rr)], [])
    else if rr >= 3.0 then Component(20, [GoodRiskReward(rr)], [])
    else if rr >= 2.0 then Component(12, [], [])
    else Component(5, [], [LowRiskReward(rr)])
  }

  /** Grade, recommendation and size multiplier for a score. */
  function Grade(score: int): (char, Recommendation, real)
  {
    if score >= 85 then ('A', Take, 1.5)
    else if score >= 70 then ('B', Take, 1.0)
    else if score >= 55 then ('C', Wait, 0.5)
    else if score >= 40 then ('D', Skip, 0.0)
    else ('F', Skip, 0.0)
  }

  /**
   * `calculate_setup_quality`. The confidence argument is accepted and not
   * used; the regime is read at the entry price.
   */
  function SetupQualityOf(direction: string, entry: real, stop: real, target: real, confidence: real,
                          top: real, bottom: real, ema21: real, ema75: real, ema150: real,
                          bars: seq<Bar>, secondOfDay: int): SetupQuality
  {
    var c1 := SessionComponent(CurrentSession(secondOfDay));
    var c2 := RegimeComponent(direction, DetectRegime(ema21, ema75, ema150, entry).regime);
    var c3 := ConfirmationComponent(direction, entry, top, bottom, bars);
    var c4 := RiskRewardComponent(entry, stop, target);
    var score := c1.points + c2.points + c3.points + c4.points;
    var g := Grade(score);
    SetupQuality(score, g.0, c1.edge + c2.edge + c3.edge + c4.edge, c1.risk + c2.risk + c3.risk + c4.risk,
                 g.1, g.2)
  }

  /**
   * The score lies in [23, 100]; the grade follows the thresholds 85 / 70 /
   * 55 / 40 with multipliers 1.5 / 1.0 / 0.5 / 0 / 0, and the
   * recommendation is TAKE exactly when the score is at least 70.
   */
  lemma SetupQualityBounds(direction: string, entry: real, stop: real, target: real, confidence: real,
                           top: real, bottom: real, ema21: real, ema75: real, ema150: real,
                           bars: seq<Bar>, secondOfDay: int)
    ensures var q := SetupQualityOf(direction, entry, stop, target, confidence, top, bottom,
                                    ema21, ema75, ema150, bars, secondOfDay);
            23 <= q.score <= 100 &&
            (q.recommendation == Take <==> q.score >= 70) &&
            (q.recommendation == Wait <==> 55 <= q.score < 70) &&
            (q.grade == 'A' <==> q.score >= 85) && (q.grade == 'B' <==> 70 <= q.score < 85) &&
            (q.grade == 'C' <==> 55 <= q.score < 70) && (q.grade == 'D' <==> 40 <= q.score < 55) &&
            (q.grade == 'F' <==> q.score < 40) &&
            q.adjustedSize == (if q.score >= 85 then 1.5 else if q.score >= 70 then 1.0
                               else if q.score >= 55 then 0.5 else 0.0)
  {
    var c1 := SessionComponent(CurrentSession(secondOfDay));
    var c2 := RegimeComponent(direction, DetectRegime(ema21, ema75, ema150, entry).regime);
    var c3 := ConfirmationComponent(direction, entry, top, bottom, bars);
    var c4 := RiskRewardComponent(entry, stop, target);
    assert 5 <= c1.points <= 25 && 5 <= c2.points <= 25 && 8 <= c3.points <= 25 && 5 <= c4.points <= 25;
  }

  /**
   * Every scoring component contributes exactly one factor, except an R/R in
   * [2, 3), which contributes none.
   */
  lemma FactorsPerComponent(direction: string, entry: real, stop: real, target: real, confidence: real,
                            top: real, bottom: real, ema21: real, ema75: real, ema150: real,
                            bars: seq<Bar>, secondOfDay: int)
    ensures var q := SetupQualityOf(direction, entry, stop, target, confidence, top, bottom,
                                    ema21, ema75, ema150, bars, secondOfDay);
            var risk := Abs(entry - stop);
            var rr := if risk > 0.0 then Abs(target - entry) / risk else 0.0;
            |q.edgeFactors| + |q.riskFactors| == (if 2.0 <= rr < 3.0 then 3 else 4)
  {
    var c1 := SessionComponent(CurrentSession(secondOfDay));
    var c2 := RegimeComponent(direction, DetectRegime(ema21, ema75, ema150, entry).regime);
    var c3 := ConfirmationComponent(direction, entry, top, bottom, bars);
    var c4 := RiskRewardComponent(entry, stop, target);
    assert |c1.edge| + |c1.risk| == 1 && |c2.edge| + |c2.risk| == 1 && |c3.edge| + |c3.risk| == 1;
  }

  /** `should_take_trade`: take exactly on a TAKE recommendation; the confidence never matters. */
  function ShouldTakeTrade(direction: string, entry: real, stop: real, target: real, confidence: real,
                           top: real, bottom: real, ema21: real, ema75: real, ema150: real,
                           bars: seq<Bar>, secondOfDay: int): (r: (bool, SetupQuality))
    ensures r.0 <==> r.1.recommendation == Take
    ensures r.1 == SetupQualityOf(direction, entry, stop, target, 0.0, top, bottom,
                                  ema21, ema75, ema150, bars, secondOfDay)
  {
    var q := SetupQualityOf(direction, entry, stop, target, confidence, top, bottom,
                            ema21, ema75, ema150, bars, secondOfDay);
    (q.recommendation == Take, q)
  }

  /**
   * A trade in the lunch session against a ranging market with no
   * confirming bar can never be taken, whatever its R/R (7 + 10 + 8 + 25 < 70).
   */
  lemma LunchRangingNeverTaken(direction: string, entry: real, stop: real, target: real, confidence: real,
                               top: real, bottom: real, ema21: real, ema75: real, ema150: real,
                               bars: seq<Bar>, secondOfDay: int)
    requires CurrentSession(secondOfDay) == Lunch
    requires DetectRegime(ema21, ema75, ema150, entry).regime == Ranging
    requires !EntryConfirmation(direction, entry, top, bottom, bars).confirmed
    ensures !ShouldTakeTrade(direction, entry, stop, target, confidence, top, bottom,
                             ema21, ema75, ema150, bars, secondOfDay).0
  {
    var c4 := RiskRewardComponent(entry, stop, target);
    assert c4.points <= 25;
  }
}
