/**
 * The exit planner (src/exit_strategies.py): an R-multiple exit plan built
 * from entry, stop and quantity, and a priority-ordered recommendation for
 * an open position (reversal, then time exit, then a partial exit and a
 * breakeven or trailing stop move). Every operation is a pure function of
 * its arguments and the planner's fixed constants.
 */
module ExitStrategies {
  import opened Common

  /** The planner's constants, in R multiples and bars. */
  const BreakevenTriggerR: real := 1.5
  const TrailingTriggerR: real := 2.0
  const TrailingOffsetR: real := 0.5
  const MaxHoldBars: int := 20

  datatype ExitPlan = ExitPlan(initialStop: real, target1: real, target2: real, target3: real,
                               trailingTrigger: real, trailingOffset: real, breakevenTrigger: real,
                               timeLimitBars: int, size1: int, size2: int, size3: int)

  /** `max(1, int(quantity * 0.33))`, with the 33% share taken in exact arithmetic. */
  function PartialSize(quantity: int): (q: int)
    ensures q >= 1
    ensures quantity >= 0 ==> 100 * q <= 33 * quantity || q == 1
    ensures q == 1 <==> 33 * quantity < 200
    ensures q > 1 ==> 100 * q <= 33 * quantity < 100 * (q + 1)
  {
    var share := (33 * quantity) / 100;
    if share > 1 then share else 1
  }

  /** `create_exit_plan`; any direction other than LONG is planned as SHORT. */
  function CreateExitPlan(direction: string, entry: real, stop: real, quantity: int): ExitPlan
  {
    var risk := Abs(entry - stop);
    var q1, q2 := PartialSize(quantity), PartialSize(quantity);
    var q3 := quantity - q1 - q2;
    if direction == "LONG" then
      ExitPlan(stop, entry + risk * 1.0, entry + risk * 2.0, entry + risk * 3.5,
               entry + risk * TrailingTriggerR, risk * TrailingOffsetR, entry + risk * BreakevenTriggerR,
               MaxHoldBars, q1, q2, q3)
    else
      ExitPlan(stop, entry - risk * 1.0, entry - risk * 2.0, entry - risk * 3.5,
               entry - risk * TrailingTriggerR, risk * TrailingOffsetR, entry - risk * BreakevenTriggerR,
               MaxHoldBars, q1, q2, q3)
  }

  /**
   * The plan's levels are entry ± 1R, 2R, 3.5R with breakeven at 1.5R and
   * trailing from 2R, offset 0.5R, where R is the stop distance; for a
   * positive R they are strictly ordered away from the entry.
   */
  lemma ExitPlanLevels(direction: string, entry: real, stop: real, quantity: int)
    ensures var p := CreateExitPlan(direction, entry, stop, quantity);
            var r := Abs(entry - stop);
            var sgn := if direction == "LONG" then 1.0 else -1.0;
            p.initialStop == stop && p.timeLimitBars == 20 && p.trailingOffset == r / 2.0 &&
            p.target1 == entry + sgn * r && p.target2 == entry + sgn * 2.0 * r &&
            p.target3 == entry + sgn * 3.5 * r && p.breakevenTrigger == entry + sgn * 1.5 * r &&
            p.trailingTrigger == p.target2
    ensures var p := CreateExitPlan(direction, entry, stop, quantity);
            entry != stop && direction == "LONG" ==>
              entry < p.target1 < p.breakevenTrigger < p.target2 == p.trailingTrigger < p.target3
    ensures var p := CreateExitPlan(direction, entry, stop, quantity);
            entry != stop && direction != "LONG" ==>
              entry > p.target1 > p.breakevenTrigger > p.target2 == p.trailingTrigger > p.target3
  {
  }

  /**
   * The three partial sizes always add up to the quantity; the first two
   * are equal and at least 1, so the runner is positive exactly when the
   * quantity is at least 3.
   */
  lemma ExitPlanSizes(direction: string, entry: real, stop: real, quantity: int)
    ensures var p := CreateExitPlan(direction, entry, stop, quantity);
            p.size1 + p.size2 + p.size3 == quantity && p.size1 == p.size2 >= 1 &&
            (p.size3 >= 1 <==> quantity >= 3)
  {
    var q1 := PartialSize(quantity);
    if quantity >= 4 {
      var share := (33 * quantity) / 100;
      assert 100 * share <= 33 * quantity;
      assert q1 == share || q1 == 1;
      assert 100 * q1 <= 33 * quantity || q1 == 1;
      assert quantity - 2 * q1 >= 1;
    } else if quantity >= 0 {
      assert (33 * quantity) / 100 == 0;
    } else {
      assert (33 * quantity) / 100 < 1;
    }
  }

  /**
   * `calculate_trailing_stop`: LONG trails the highest price by the offset,
   * SHORT (any other direction) the lowest, and a stop is proposed only when
   * it tightens the current stop and stays on the right side of the price.
   */
  function TrailingStop(direction: string, price: real, currentStop: real, highest: real,
                        lowest: real, offset: real): (r: Option<real>)
    ensures direction == "LONG" ==>
              (r.Some? <==> currentStop < highest - offset < price) &&
              (r.Some? ==> r.value == highest - offset)
    ensures direction != "LONG" ==>
              (r.Some? <==> price < lowest + offset < currentStop) &&
              (r.Some? ==> r.value == lowest + offset)
  {
    if direction == "LONG" then
      var ns := highest - offset;
      if ns > currentStop && ns < price then Some(ns) else None
    else
      var ns := lowest + offset;
      if ns < currentStop && ns > price then Some(ns) else None
  }

  /** `should_move_to_breakeven`: not once the stop has reached the entry; then on the trigger. */
  function MoveToBreakeven(direction: string, price: real, entry: real, currentStop: real,
                           trigger: real): (b: bool)
    ensures direction == "LONG" ==> (b <==> currentStop < entry && price >= trigger)
    ensures direction == "SHORT" ==> (b <==> currentStop > entry && price <= trigger)
    ensures direction != "LONG" && direction != "SHORT" ==> (b <==> price <= trigger)
  {
    if direction == "LONG" && currentStop >= entry then false
    else if direction == "SHORT" && currentStop <= entry then false
    else if direction == "LONG" then price >= trigger
    else price <= trigger
  }

  /**
   * Outcome of `check_partial_exit`. A negative count indexes from the end
   * as Python lists do, and below -2 the lookup raises an IndexError.
   */
  datatype PartialCheck = NoPartial | TakePartial(price: real, quantity: int) | PartialIndexError

  function PartialTarget(p: ExitPlan, k: int): real
    requires -2 <= k <= 1
  {
    if k == 0 || k == -2 then p.target1 else p.target2
  }

  function PartialQuantity(p: ExitPlan, k: int): int
    requires -3 <= k <= 2
  {
    if k == 0 || k == -3 then p.size1 else if k == 1 || k == -2 then p.size2 else p.size3
  }

  function CheckPartialExit(direction: string, price: real, p: ExitPlan, partialsTaken: int): (r: PartialCheck)
    ensures partialsTaken >= 2 ==> r == NoPartial
    ensures r == PartialIndexError <==> partialsTaken < -2
    ensures 0 <= partialsTaken <= 1 ==>
              var t := if partialsTaken == 0 then p.target1 else p.target2;
              var q := if partialsTaken == 0 then p.size1 else p.size2;
              (r.TakePartial? <==> (if direction == "LONG" then price >= t else price <= t)) &&
              (r.TakePartial? ==> r == TakePartial(t, q))
  {
    if partialsTaken >= 2 then NoPartial
    else if partialsTaken < -2 then PartialIndexError
    else
      var target := PartialTarget(p, partialsTaken);
      var size := PartialQuantity(p, partialsTaken);
      if direction == "LONG" then
        if price >= target then TakePartial(target, size) else NoPartial
      else
        if price <= target then TakePartial(target, size) else NoPartial
  }

  /** `check_time_exit`: past the limit and not down by 10 points or more. */
  function TimeExit(barsInTrade: int, pnl: real, p: ExitPlan): (b: bool)
    ensures b <==> barsInTrade >= p.timeLimitBars && pnl > -10.0
  {
    if barsInTrade >= p.timeLimitBars then
      if pnl >= 0.0 then true
      else pnl > -10.0
    else false
  }

  /** A strong bar against the position: body over 75% of a range above 15 points. */
  predicate StrongBar(b: Bar, bearish: bool)
  {
    var range := b.high - b.low;
    range > 0.0 &&
    (if bearish then b.close < b.open else b.close > b.open) &&
    Abs(b.close - b.open) / range > 0.75 && range > 15.0
  }

  /** `detect_reversal` over the recent bars (at least three are needed). */
  function DetectReversal(direction: string, price: real, ema75: real, recent: seq<Bar>): (b: bool)
    ensures |recent| < 3 ==> !b
    ensures |recent| >= 3 && direction == "LONG" ==>
              (b <==> (price < ema75 && recent[|recent| - 2].close > ema75) || StrongBar(recent[|recent| - 1], true))
    ensures |recent| >= 3 && direction != "LONG" ==>
              (b <==> (price > ema75 && recent[|recent| - 2].close < ema75) || StrongBar(recent[|recent| - 1], false))
  {
    if |recent| < 3 then false
    else
      var last := recent[|recent| - 1];
      if direction == "LONG" then
        if price < ema75 && recent[|recent| - 2].close > ema75 then true
        else
          var range := last.high - last.low;
          range > 0.0 && last.close < last.open && Abs(last.close - last.open) / range > 0.75 && range > 15.0
      else
        if price > ema75 && recent[|recent| - 2].close < ema75 then true
        else
          var range := last.high - last.low;
          range > 0.0 && last.close > last.open && Abs(last.close - last.open) / range > 0.75 && range > 15.0
  }

  datatype CloseReason = NoClose | ReversalDetected | TimeExitAfter(bars: int)

  /** The recommendation dictionary: a stop move, a partial exit, a close. */
  datatype Recommendation = Recommendation(moveStop: Option<real>, takePartial: PartialCheck,
                                           closePosition: bool, closeReason: CloseReason)

  /** The stop move of step 4/5: breakeven ± 1 point, else a trailing stop once at or past the entry. */
  function StopMove(direction: string, entry: real, price: real, currentStop: real, p: ExitPlan,
                    highest: real, lowest: real): Option<real>
  {
    if MoveToBreakeven(direction, price, entry, currentStop, p.breakevenTrigger) then
      Some(entry + (if direction == "LONG" then 1.0 else -1.0))
    else if (if direction == "LONG" then currentStop >= entry else currentStop <= entry) then
      if (direction == "LONG" && price >= p.trailingTrigger) || (direction == "SHORT" && price <= p.trailingTrigger) then
        match TrailingStop(direction, price, currentStop, highest, lowest, p.trailingOffset)
        case Some(ns) => if ns != 0.0 then Some(ns) else None
        case None => None
      else None
    else None
  }

  /**
   * `get_exit_recommendation`. `ema75` is the market data's 75 EMA (0 when
   * absent); an empty `recent` list skips the reversal check.
   */
  function ExitRecommendation(direction: string, entry: real, price: real, currentStop: real,
                              p: ExitPlan, partialsTaken: int, barsInTrade: int, highest: real,
                              lowest: real, ema75: real, recent: seq<Bar>): Recommendation
  {
    var pnl := if direction == "LONG" then price - entry else entry - price;
    if recent != [] && DetectReversal(direction, price, ema75, recent) then
      Recommendation(None, NoPartial, true, ReversalDetected)
    else if TimeExit(barsInTrade, pnl, p) then
      Recommendation(None, NoPartial, true, TimeExitAfter(barsInTrade))
    else
      Recommendation(StopMove(direction, entry, price, currentStop, p, highest, lowest),
                     CheckPartialExit(direction, price, p, partialsTaken), false, NoClose)
  }

  /**
   * The priority order: reversal, then the time exit; a close carries no
   * stop move and no partial; otherwise the partial is exactly
   * `check_partial_exit`'s answer.
   */
  lemma RecommendationPriority(direction: string, entry: real, price: real, currentStop: real,
                               p: ExitPlan, partialsTaken: int, barsInTrade: int, highest: real,
                               lowest: real, ema75: real, recent: seq<Bar>)
    ensures var r := ExitRecommendation(direction, entry, price, currentStop, p, partialsTaken,
                                        barsInTrade, highest, lowest, ema75, recent);
            var pnl := if direction == "LONG" then price - entry else entry - price;
            var rev := DetectReversal(direction, price, ema75, recent);
            (r.closePosition ==> r.moveStop.None? && r.takePartial == NoPartial) &&
            (r.closeReason == ReversalDetected <==> rev) &&
            (r.closeReason.TimeExitAfter? <==> !rev && barsInTrade >= p.timeLimitBars && pnl > -10.0) &&
            (r.closePosition <==> r.closeReason != NoClose) &&
            (!r.closePosition ==> r.takePartial == CheckPartialExit(direction, price, p, partialsTaken))
  {
  }

  /**
   * A recommended LONG stop is strictly above the current stop and a SHORT
   * stop strictly below it: it is the breakeven move while the stop has
   * not reached the entry, or a trailing stop once it has and the price is
   * past the trailing trigger.
   */
  lemma StopMoveTightens(direction: string, entry: real, price: real, currentStop: real,
                         p: ExitPlan, partialsTaken: int, barsInTrade: int, highest: real,
                         lowest: real, ema75: real, recent: seq<Bar>)
    ensures var r := ExitRecommendation(direction, entry, price, currentStop, p, partialsTaken,
                                        barsInTrade, highest, lowest, ema75, recent);
            match r.moveStop
            case None => true
            case Some(s) =>
              (direction == "LONG" ==>
                 (s > currentStop &&
                  ((currentStop < entry && price >= p.breakevenTrigger && s == entry + 1.0) ||
                   (currentStop >= entry && price >= p.trailingTrigger && s == highest - p.trailingOffset)))) &&
              (direction == "SHORT" ==>
                 (s < currentStop &&
                  ((currentStop > entry && price <= p.breakevenTrigger && s == entry - 1.0) ||
                   (currentStop <= entry && price <= p.trailingTrigger && s == lowest + p.trailingOffset))))
  {
  }

  /**
   * The converse of `StopMoveTightens`: when the position stays open, the
   * stop IS moved whenever a move is due — to one point past the entry on
   * the breakeven trigger, else to the trailing level once the stop is at
   * or past the entry, the price is past the trailing trigger and the
   * trailing level is a nonzero improvement strictly between the stop and
   * the price — and is left alone otherwise.
   */
  lemma StopMoveWhenDue(direction: string, entry: real, price: real, currentStop: real,
                        p: ExitPlan, partialsTaken: int, barsInTrade: int, highest: real,
                        lowest: real, ema75: real, recent: seq<Bar>)
    ensures var r := ExitRecommendation(direction, entry, price, currentStop, p, partialsTaken,
                                        barsInTrade, highest, lowest, ema75, recent);
            var longLevel := highest - p.trailingOffset;
            var longBreakeven := currentStop < entry && price >= p.breakevenTrigger;
            var longTrail := entry <= currentStop && price >= p.trailingTrigger &&
                             currentStop < longLevel < price && longLevel != 0.0;
            direction == "LONG" && !r.closePosition ==>
              (longBreakeven ==> r.moveStop == Some(entry + 1.0)) &&
              (!longBreakeven && longTrail ==> r.moveStop == Some(longLevel)) &&
              (r.moveStop.Some? <==> longBreakeven || longTrail)
    ensures var r := ExitRecommendation(direction, entry, price, currentStop, p, partialsTaken,
                                        barsInTrade, highest, lowest, ema75, recent);
            var shortLevel := lowest + p.trailingOffset;
            var shortBreakeven := currentStop > entry && price <= p.breakevenTrigger;
            var shortTrail := currentStop <= entry && price <= p.trailingTrigger &&
                              price < shortLevel < currentStop && shortLevel != 0.0;
            direction == "SHORT" && !r.closePosition ==>
              (shortBreakeven ==> r.moveStop == Some(entry - 1.0)) &&
              (!shortBreakeven && shortTrail ==> r.moveStop == Some(shortLevel)) &&
              (r.moveStop.Some? <==> shortBreakeven || shortTrail)
  {
  }
}
