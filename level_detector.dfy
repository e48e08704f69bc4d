/**
 * Psychological ("round number") price levels (src/level_detector.py): a
 * price is rounded to the nearest multiple of an interval with Python's
 * round-half-to-even, the levels just above and below it are reported with
 * their distances, and a short list of nearby levels is sorted by distance.
 */
module LevelDetector {
  import opened Common
  import opened Sorting

  /** A price level: an integer multiple of the interval. */
  predicate IsLevel(x: int, interval: int)
    requires interval > 0
  {
    x % interval == 0
  }

  lemma MulAtLeast(d: int, i: int)
    requires d >= 1 && i > 0
    ensures d * i >= i
  {
  }

  /** Euclidean division is determined by quotient and remainder. */
  lemma DivModUnique(x: int, i: int, q: int, r: int)
    requires i > 0 && 0 <= r < i && x == q * i + r
    ensures x / i == q && x % i == r
  {
    var q', r' := x / i, x % i;
    assert x == q' * i + r';
    if q > q' {
      MulAtLeast(q - q', i);
    } else if q < q' {
      MulAtLeast(q' - q, i);
    }
  }

  /** `m * interval` is the level of index `m`. */
  lemma MultipleIsLevel(m: int, interval: int)
    requires interval > 0
    ensures IsLevel(m * interval, interval) && (m * interval) / interval == m
  {
    DivModUnique(m * interval, interval, m, 0);
  }

  /** Moving a level by whole intervals gives a level. */
  lemma ShiftedLevel(x: int, j: int, interval: int)
    requires interval > 0 && IsLevel(x, interval)
    ensures IsLevel(x + j * interval, interval)
  {
    var a := x / interval;
    assert x == a * interval;
    assert x + j * interval == (a + j) * interval;
    MultipleIsLevel(a + j, interval);
  }

  /** Python's `round` on a number: to the nearest integer, ties to the even one. */
  function RoundHalfEven(x: real): int
  {
    var f := x.Floor;
    var d := x - f as real;
    if d < 0.5 then f
    else if d > 0.5 then f + 1
    else if f % 2 == 0 then f else f + 1
  }

  /** `round` picks an integer at least as close as any other, and the even one on a tie. */
  lemma RoundHalfEvenNearest(x: real, k: int)
    ensures Abs(x - RoundHalfEven(x) as real) <= 0.5
    ensures Abs(x - RoundHalfEven(x) as real) <= Abs(x - k as real)
    ensures Abs(x - RoundHalfEven(x) as real) == 0.5 ==> RoundHalfEven(x) % 2 == 0
    ensures Abs(x - RoundHalfEven(x) as real) < 0.5 ==> (Abs(x - k as real) < 0.5 ==> k == RoundHalfEven(x))
  {
    var f := x.Floor;
    assert f as real <= x < f as real + 1.0;
    if k <= f - 1 {
    } else if k >= f + 2 {
    }
  }

  /** `round_to_level`. */
  function RoundToLevel(price: real, interval: int): int
    requires interval > 0
  {
    RoundHalfEven(price / interval as real) * interval
  }

  /**
   * The rounded level is a multiple of the interval, at least as close to the
   * price as every other multiple and within half an interval of it; on an
   * exact tie the even multiple is chosen.
   */
  lemma RoundToLevelNearest(price: real, interval: int, x: int)
    requires interval > 0 && IsLevel(x, interval)
    ensures IsLevel(RoundToLevel(price, interval), interval)
    ensures Abs(price - RoundToLevel(price, interval) as real) <= Abs(price - x as real)
    ensures 2.0 * Abs(price - RoundToLevel(price, interval) as real) <= interval as real
    ensures 2.0 * Abs(price - RoundToLevel(price, interval) as real) == interval as real ==>
              (RoundToLevel(price, interval) / interval) % 2 == 0
  {
    var q := price / interval as real;
    var n := RoundHalfEven(q);
    var m := x / interval;
    assert x == m * interval;
    RoundHalfEvenNearest(q, m);
    assert RoundToLevel(price, interval) == n * interval;
    MultipleIsLevel(n, interval);
    ScaledCompare(price, interval, n, m);
    ScaledHalf(price, interval, n);
  }

  /** |i*d| is i*|d| for a positive i. */
  lemma AbsScale(i: real, d: real)
    requires i > 0.0
    ensures Abs(i * d) == i * Abs(d)
  {
    if d < 0.0 { assert i * d < 0.0; } else { assert i * d >= 0.0; }
  }
  /** Multiplying by a positive number keeps order and equality. */
  lemma ScaleLe(i: real, a: real, b: real)
    requires i > 0.0
    ensures a <= b <==> i * a <= i * b
    ensures a == b <==> i * a == i * b
  {
    if a < b {
      assert i * b - i * a == i * (b - a);
    } else if b < a {
      assert i * a - i * b == i * (a - b);
    }
  }
  /** The distance from a level `l = r*i` is `i` times the scaled distance from r. */
  lemma DistScaled(price: real, i: real, q: real, r: real, l: real)
    requires i > 0.0 && q * i == price && l == r * i
    ensures Abs(price - l) == i * Abs(q - r)
  {
    assert price - l == i * (q - r);
    AbsScale(i, q - r);
  }
  /** Closer in scaled units is closer in points. */
  lemma RealCompare(price: real, i: real, q: real, nr: real, mr: real, ln: real, lm: real)
    requires i > 0.0 && q * i == price && Abs(q - nr) <= Abs(q - mr) && ln == nr * i && lm == mr * i
    ensures Abs(price - ln) <= Abs(price - lm)
  {
    var a, b := Abs(q - nr), Abs(q - mr);
    DistScaled(price, i, q, nr, ln);
    DistScaled(price, i, q, mr, lm);
    ScaleLe(i, a, b);
  }
  lemma CastMul(k: int, interval: int)
    ensures (k * interval) as real == k as real * interval as real
  {
  }
  lemma DivMul(price: real, i: real)
    requires i > 0.0
    ensures price / i * i == price
  {
  }
  /** Closeness of scaled integers carries over to their multiples of the interval. */
  lemma ScaledCompare(price: real, interval: int, n: int, m: int)
    requires interval > 0
    requires var q := price / interval as real;
             Abs(q - n as real) <= Abs(q - m as real)
    ensures Abs(price - (n * interval) as real) <= Abs(price - (m * interval) as real)
  {
    var i := interval as real;
    var q := price / i;
    DivMul(price, i);
    CastMul(n, interval);
    CastMul(m, interval);
    RealCompare(price, i, q, n as real, m as real, (n * interval) as real, (m * interval) as real);
  }

  /** A distance `a = i*d` with `d` at most one half is at most half of `i`, and exactly half only when `d` is. */
  lemma HalfScale(a: real, i: real, d: real)
    requires i > 0.0 && 0.0 <= d <= 0.5 && a == i * d
    ensures 2.0 * a <= i
    ensures 2.0 * a == i ==> d == 0.5
  {
    if d < 0.5 {
      assert i * (0.5 - d) > 0.0;
    }
  }

  /** Within half a scaled step is within half an interval; equality only on an exact half. */
  lemma ScaledHalf(price: real, interval: int, n: int)
    requires interval > 0
    requires Abs(price / interval as real - n as real) <= 0.5
    ensures 2.0 * Abs(price - (n * interval) as real) <= interval as real
    ensures 2.0 * Abs(price - (n * interval) as real) == interval as real ==>
              Abs(price / interval as real - n as real) == 0.5
  {
    var i := interval as real;
    var q := price / i;
    var l := (n * interval) as real;
    DivMul(price, i);
    CastMul(n, interval);
    DistScaled(price, i, q, n as real, l);
    HalfScale(Abs(price - l), i, Abs(q - n as real));
  }

  /** The result of `find_nearest_levels`. */
  datatype NearestLevels = NearestLevels(levelAbove: int, distanceAbove: real, levelBelow: int,
                                         distanceBelow: real, onLevel: bool, nearestLevel: int)

  /** `find_nearest_levels`. */
  function FindNearestLevels(price: real, interval: int): NearestLevels
    requires interval > 0
  {
    LevelsAround(price, RoundToLevel(price, interval), interval)
  }

  /** The body of `find_nearest_levels` once the nearest level is known. */
  function LevelsAround(price: real, nearest: int, interval: int): NearestLevels
  {
    var (above, below) :=
      if price == nearest as real then (nearest + interval, nearest - interval)
      else if price < nearest as real then (nearest, nearest - interval)
      else (nearest + interval, nearest);
    NearestLevels(above, above as real - price, below, price - below as real,
                  Abs(price - nearest as real) < 1.0, nearest)
  }

  /** A product with a positive factor is positive only when the other factor is. */
  lemma MulSign(d: int, i: int)
    ensures d <= 0 && i > 0 ==> d * i <= 0
  {
  }

  /** Two distinct multiples of the interval are at least one interval apart. */
  lemma LevelsApart(x: int, y: int, interval: int)
    requires interval > 0 && IsLevel(x, interval) && IsLevel(y, interval) && x < y
    ensures x <= y - interval
  {
    var a, b := x / interval, y / interval;
    assert x == a * interval && y == b * interval;
    assert (b - a) * interval == b * interval - a * interval;
    MulSign(b - a, interval);
    MulAtLeast(b - a, interval);
  }

  /** What `LevelsAround` gives for a level within half an interval of the price. */
  lemma LevelsAroundSpec(price: real, n: int, interval: int)
    requires interval > 0 && IsLevel(n, interval) && 2.0 * Abs(price - n as real) <= interval as real
    ensures var r := LevelsAround(price, n, interval);
            IsLevel(r.levelAbove, interval) && IsLevel(r.levelBelow, interval) &&
            r.levelBelow as real < price < r.levelAbove as real &&
            (r.levelAbove - interval) as real <= price <= (r.levelBelow + interval) as real &&
            r.levelAbove - r.levelBelow == (if price == n as real then 2 * interval else interval) &&
            r.distanceAbove == r.levelAbove as real - price > 0.0 &&
            r.distanceBelow == price - r.levelBelow as real > 0.0 &&
            (r.onLevel <==> Abs(price - n as real) < 1.0) &&
            r.nearestLevel == n
  {
    ShiftedLevel(n, 1, interval);
    ShiftedLevel(n, -1, interval);
  }

  /**
   * The levels bracket the price strictly: `levelAbove` is the least multiple
   * of the interval above the price and `levelBelow` the greatest below it,
   * so they are one interval apart, or two when the price sits exactly on a
   * level; both distances are positive, and `onLevel` holds exactly when the
   * price is within one point of the nearest level.
   */
  lemma NearestLevelsSpec(price: real, interval: int)
    requires interval > 0
    ensures var r := FindNearestLevels(price, interval);
            IsLevel(r.levelAbove, interval) && IsLevel(r.levelBelow, interval) &&
            r.levelBelow as real < price < r.levelAbove as real &&
            (forall x :: IsLevel(x, interval) && x as real > price ==> x >= r.levelAbove) &&
            (forall x :: IsLevel(x, interval) && x as real < price ==> x <= r.levelBelow) &&
            r.levelAbove - r.levelBelow == (if price == r.nearestLevel as real then 2 * interval else interval) &&
            r.distanceAbove == r.levelAbove as real - price > 0.0 &&
            r.distanceBelow == price - r.levelBelow as real > 0.0 &&
            (r.onLevel <==> Abs(price - r.nearestLevel as real) < 1.0) &&
            r.nearestLevel == RoundToLevel(price, interval)
  {
    var n := RoundToLevel(price, interval);
    RoundToLevelNearest(price, interval, 0);
    LevelsAroundSpec(price, n, interval);
    var r := LevelsAround(price, n, interval);
    forall x | IsLevel(x, interval) && x as real > price ensures x >= r.levelAbove {
      if x < r.levelAbove {
        LevelsApart(x, r.levelAbove, interval);
      }
    }
    forall x | IsLevel(x, interval) && x as real < price ensures x <= r.levelBelow {
      if x > r.levelBelow {
        LevelsApart(r.levelBelow, x, interval);
      }
    }
  }

  /** Levels `nearest + i*interval` for i in 0..k-1 that are at or above the price. */
  function AboveLevels(nearest: int, interval: int, price: real, k: int): seq<int>
    decreases k
  {
    if k <= 0 then []
    else
      var x := nearest + (k - 1) * interval;
      AboveLevels(nearest, interval, price, k - 1) + (if x as real >= price then [x] else [])
  }

  /** Levels `nearest - i*interval` for i in 1..k that are at or below the price. */
  function BelowLevels(nearest: int, interval: int, price: real, k: int): seq<int>
    decreases k
  {
    if k <= 0 then []
    else
      var x := nearest - k * interval;
      BelowLevels(nearest, interval, price, k - 1) + (if x as real <= price then [x] else [])
  }

  /** The unsorted list `find_nearby_levels` builds. */
  function Candidates(price: real, interval: int, count: int): seq<int>
    requires interval > 0
  {
    var nearest := RoundToLevel(price, interval);
    AboveLevels(nearest, interval, price, count) + BelowLevels(nearest, interval, price, count)
  }

  /** The sort key of `find_nearby_levels`: distance from the price. */
  function DistanceFrom(price: real): int -> real
  {
    x => Abs(x as real - price)
  }

  /** Above the nearest level every step is kept; the nearest itself only when it is not below the price. */
  lemma {:induction false} AboveLevelsShape(nearest: int, interval: int, price: real, k: int)
    requires interval > 0 && k >= 1 && 2.0 * Abs(price - nearest as real) <= interval as real
    ensures |AboveLevels(nearest, interval, price, k)| == (if nearest as real >= price then k else k - 1)
    ensures forall j :: 0 <= j < |AboveLevels(nearest, interval, price, k)| ==>
              nearest <= AboveLevels(nearest, interval, price, k)[j] <= nearest + (k - 1) * interval &&
              AboveLevels(nearest, interval, price, k)[j] as real >= price
    decreases k
  {
    if k > 1 {
      AboveLevelsShape(nearest, interval, price, k - 1);
      var x := nearest + (k - 1) * interval;
      assert x == nearest + (k - 2) * interval + interval;
      assert x >= nearest + interval by { MulAtLeast(k - 1, interval); }
      assert AboveLevels(nearest, interval, price, k) == AboveLevels(nearest, interval, price, k - 1) + [x];
    }
  }

  /** Every step below the nearest level is kept. */
  lemma {:induction false} BelowLevelsShape(nearest: int, interval: int, price: real, k: int)
    requires interval > 0 && k >= 0 && 2.0 * Abs(price - nearest as real) <= interval as real
    ensures |BelowLevels(nearest, interval, price, k)| == k
    ensures forall j :: 0 <= j < k ==>
              nearest - k * interval <= BelowLevels(nearest, interval, price, k)[j] < nearest &&
              BelowLevels(nearest, interval, price, k)[j] as real <= price
    decreases k
  {
    if k > 0 {
      BelowLevelsShape(nearest, interval, price, k - 1);
      var low, prevLow := k * interval, (k - 1) * interval;
      assert low == prevLow + interval;
      MulAtLeast(k, interval);
      var x := nearest - low;
      assert x as real <= price;
      assert BelowLevels(nearest, interval, price, k) == BelowLevels(nearest, interval, price, k - 1) + [x];
    }
  }

  /** An above-list entry is a level when the nearest level is one. */
  lemma {:induction false} AboveLevelsAreLevels(nearest: int, interval: int, price: real, k: int)
    requires interval > 0 && IsLevel(nearest, interval)
    ensures forall j :: 0 <= j < |AboveLevels(nearest, interval, price, k)| ==>
              IsLevel(AboveLevels(nearest, interval, price, k)[j], interval)
    decreases k
  {
    if k > 0 {
      AboveLevelsAreLevels(nearest, interval, price, k - 1);
      ShiftedLevel(nearest, k - 1, interval);
    }
  }

  /** A below-list entry is a level when the nearest level is one. */
  lemma {:induction false} BelowLevelsAreLevels(nearest: int, interval: int, price: real, k: int)
    requires interval > 0 && IsLevel(nearest, interval)
    ensures forall j :: 0 <= j < |BelowLevels(nearest, interval, price, k)| ==>
              IsLevel(BelowLevels(nearest, interval, price, k)[j], interval)
    decreases k
  {
    if k > 0 {
      BelowLevelsAreLevels(nearest, interval, price, k - 1);
      ShiftedLevel(nearest, -k, interval);
      assert nearest + (-k) * interval == nearest - k * interval;
    }
  }

  /**
   * For a positive count the list has 2*count levels, one fewer when the
   * price is above its nearest level (that level is then skipped); all are
   * multiples of the interval within `count` intervals of the nearest level,
   * the first part at or above the price and the rest strictly below the
   * nearest level and at or below the price. A count of zero or less gives
   * an empty list.
   */
  lemma CandidatesShape(price: real, interval: int, count: int)
    requires interval > 0
    ensures var c := Candidates(price, interval, count);
            var n := RoundToLevel(price, interval);
            (count <= 0 ==> c == []) &&
            (count >= 1 ==> |c| == 2 * count - (if n as real >= price then 0 else 1)) &&
            (forall j :: 0 <= j < |c| ==>
               IsLevel(c[j], interval) && n - count * interval <= c[j] <= n + (count - 1) * interval)
  {
    var n := RoundToLevel(price, interval);
    RoundToLevelNearest(price, interval, 0);
    CandidatesAround(price, n, interval, count);
    CandidatesWindow(price, n, interval, count);
  }

  /** Length and level-ness of the two collected lists around any level within half an interval of the price. */
  lemma CandidatesAround(price: real, n: int, interval: int, count: int)
    requires interval > 0 && IsLevel(n, interval) && 2.0 * Abs(price - n as real) <= interval as real
    ensures var c := AboveLevels(n, interval, price, count) + BelowLevels(n, interval, price, count);
            (count <= 0 ==> c == []) &&
            (count >= 1 ==> |c| == 2 * count - (if n as real >= price then 0 else 1)) &&
            forall j :: 0 <= j < |c| ==> IsLevel(c[j], interval)
  {
    AboveLevelsAreLevels(n, interval, price, count);
    BelowLevelsAreLevels(n, interval, price, count);
    if count >= 1 {
      AboveLevelsShape(n, interval, price, count);
      BelowLevelsShape(n, interval, price, count);
    }
  }

  /** The collected levels lie between `count` intervals below and `count - 1` above the nearest level. */
  lemma CandidatesWindow(price: real, n: int, interval: int, count: int)
    requires interval > 0 && 2.0 * Abs(price - n as real) <= interval as real
    ensures var c := AboveLevels(n, interval, price, count) + BelowLevels(n, interval, price, count);
            forall j :: 0 <= j < |c| ==> n - count * interval <= c[j] <= n + (count - 1) * interval
  {
    if count >= 1 {
      AboveLevelsShape(n, interval, price, count);
      BelowLevelsShape(n, interval, price, count);
      var a, b := AboveLevels(n, interval, price, count), BelowLevels(n, interval, price, count);
      var c := a + b;
      var lo, hi := n - count * interval, n + (count - 1) * interval;
      assert lo <= n <= hi by { MulSign(-(count - 1), interval); MulSign(-count, interval); }
      forall j | 0 <= j < |c| ensures lo <= c[j] <= hi {
        if j < |a| { assert c[j] == a[j]; } else { assert c[j] == b[j - |a|]; }
      }
    }
  }

  /**
   * The list `find_nearby_levels` returns is sorted by distance from the
   * price, is a permutation of the collected list, and so inherits its
   * length, its levels and its window around the nearest level.
   */
  lemma NearbyLevelsSpec(price: real, interval: int, count: int)
    requires interval > 0
    ensures var levels := SortByKey(DistanceFrom(price), Candidates(price, interval, count));
            var n := RoundToLevel(price, interval);
            SortedBy(DistanceFrom(price), levels) &&
            (count <= 0 ==> levels == []) &&
            (count >= 1 ==> |levels| == 2 * count - (if n as real >= price then 0 else 1)) &&
            forall j :: 0 <= j < |levels| ==>
              IsLevel(levels[j], interval) && n - count * interval <= levels[j] <= n + (count - 1) * interval
  {
    var c := Candidates(price, interval, count);
    var n := RoundToLevel(price, interval);
    CandidatesShape(price, interval, count);
    SortByKeySorted(DistanceFrom(price), c);
    var levels := SortByKey(DistanceFrom(price), c);
    forall j | 0 <= j < |levels|
      ensures IsLevel(levels[j], interval) && n - count * interval <= levels[j] <= n + (count - 1) * interval
    {
      assert levels[j] in multiset(c);
      var k :| 0 <= k < |c| && c[k] == levels[j];
    }
  }

  /**
   * `find_nearby_levels`: the two collecting loops, then the stable sort by
   * distance from the price.
   */
  method FindNearbyLevels(price: real, interval: int, count: int) returns (levels: seq<int>)
    requires interval > 0
    ensures levels == SortByKey(DistanceFrom(price), Candidates(price, interval, count))
    ensures multiset(levels) == multiset(Candidates(price, interval, count))
    ensures count <= 0 ==> levels == []
    ensures count >= 1 ==> |levels| == 2 * count - (if RoundToLevel(price, interval) as real >= price then 0 else 1)
    ensures forall j :: 0 <= j < |levels| ==> IsLevel(levels[j], interval)
    ensures SortedBy(DistanceFrom(price), levels)
  {
    var nearest := RoundToLevel(price, interval);
    levels := [];
    var i := 0;
    while i < count
      invariant 0 <= i <= if count > 0 then count else 0
      invariant levels == AboveLevels(nearest, interval, price, i)
    {
      if (nearest + i * interval) as real >= price {
        levels := levels + [nearest + i * interval];
      }
      i := i + 1;
    }
    var above := levels;
    i := 1;
    while i <= count
      invariant 1 <= i <= if count > 0 then count + 1 else 1
      invariant levels == above + BelowLevels(nearest, interval, price, i - 1)
    {
      if (nearest - i * interval) as real <= price {
        levels := levels + [nearest - i * interval];
      }
      i := i + 1;
    }
    assert levels == Candidates(price, interval, count);
    NearbyLevelsSpec(price, interval, count);
    levels := SortByKey(DistanceFrom(price), levels);
  }
}
