/**
 * The live gap-zone engine (FairValueGaps.py): detection of fair value gaps
 * from bar triples, de-duplication of overlapping zones of the same type
 * (the smaller zone wins), filling from completed bars and live prices, and
 * purging of filled zones. The zone list is a field the methods update.
 *
 * The invariant kept by every update is NoOverlap: no two unfilled zones of
 * the same type overlap.
 */
module FairValueGaps {
  import opened Common

  datatype FvgKind = Bullish | Bearish

  /** A detected gap: the price band [bottom, top] left open between bars i-2 and i. */
  datatype Zone = Zone(kind: FvgKind, top: real, bottom: real, gapSize: real,
                       time: int, index: int, filled: bool)

  /** Minimum gap, in points, for the live detector. */
  const MinGapSize: real := 5.0

  /**
   * The zone (if any) formed by bars i-2 and i. A bullish gap needs bar i's
   * low above bar i-2's high; only when that fails is the bearish mirror tried.
   */
  function TripleZone(bars: seq<Bar>, i: int, minGap: real): (r: Option<Zone>)
    requires 2 <= i < |bars|
    ensures r.Some? ==> r.value.index == i && r.value.time == bars[i].time && !r.value.filled
    ensures r.Some? ==> r.value.top > r.value.bottom && r.value.gapSize == r.value.top - r.value.bottom
    ensures r.Some? ==> r.value.gapSize >= minGap
    ensures (r.Some? && r.value.kind == Bullish) <==>
            (bars[i].low > bars[i - 2].high && bars[i].low - bars[i - 2].high >= minGap)
    ensures (r.Some? && r.value.kind == Bearish) <==>
            (!(bars[i].low > bars[i - 2].high) && bars[i].high < bars[i - 2].low
             && bars[i - 2].low - bars[i].high >= minGap)
    ensures r.Some? && r.value.kind == Bullish ==> r.value.top == bars[i].low && r.value.bottom == bars[i - 2].high
    ensures r.Some? && r.value.kind == Bearish ==> r.value.top == bars[i - 2].low && r.value.bottom == bars[i].high
  {
    var c1, c3 := bars[i - 2], bars[i];
    if c3.low > c1.high then
      if c3.low - c1.high >= minGap
      then Some(Zone(Bullish, c3.low, c1.high, c3.low - c1.high, c3.time, i, false))
      else None
    else if c3.high < c1.low then
      if c1.low - c3.high >= minGap
      then Some(Zone(Bearish, c1.low, c3.high, c1.low - c3.high, c3.time, i, false))
      else None
    else None
  }

  /** All zones formed at indices 2 .. n-1, in index order. */
  function ScanZones(bars: seq<Bar>, n: int, minGap: real): (r: seq<Zone>)
    requires n <= |bars|
    ensures n < 3 ==> r == []
    ensures forall k :: 0 <= k < |r| ==>
              2 <= r[k].index < n && TripleZone(bars, r[k].index, minGap) == Some(r[k])
    ensures forall k, l :: 0 <= k < l < |r| ==> r[k].index < r[l].index
    ensures forall i :: 2 <= i < n && TripleZone(bars, i, minGap).Some? ==>
              TripleZone(bars, i, minGap).value in r
    decreases n
  {
    if n < 3 then []
    else
      var prev := ScanZones(bars, n - 1, minGap);
      match TripleZone(bars, n - 1, minGap)
      case None => prev
      case Some(z) => prev + [z]
  }

  /** Does bar `b` fill zone `z`: a bullish low at or below the bottom, a bearish high at or above the top. */
  predicate BarFills(z: Zone, b: Bar)
  {
    (z.kind == Bullish && b.low <= z.bottom) || (z.kind == Bearish && b.high >= z.top)
  }

  /** Does a live price fill zone `z`. */
  predicate PriceFills(z: Zone, price: real)
  {
    (z.kind == Bearish && price >= z.top) || (z.kind == Bullish && price <= z.bottom)
  }

  /** Is `z` filled by some bar strictly after index `start`. */
  ghost predicate FilledAfter(z: Zone, bars: seq<Bar>, start: int)
  {
    exists j :: 0 <= j < |bars| && start < j && BarFills(z, bars[j])
  }

  /** The zone that a completed bar leaves behind: only `filled` can change, and only to true. */
  function ApplyBarFill(z: Zone, b: Bar): (r: Zone)
    ensures r.(filled := z.filled) == z
    ensures r.filled <==> z.filled || BarFills(z, b)
  {
    if !z.filled && BarFills(z, b) then z.(filled := true) else z
  }

  /** The zone that a live price leaves behind. */
  function ApplyPriceFill(z: Zone, price: real): (r: Zone)
    ensures r.(filled := z.filled) == z
    ensures r.filled <==> z.filled || PriceFills(z, price)
  {
    if !z.filled && PriceFills(z, price) then z.(filled := true) else z
  }

  function FillAllByBar(s: seq<Zone>, b: Bar): (r: seq<Zone>)
  {
    seq(|s|, i requires 0 <= i < |s| => ApplyBarFill(s[i], b))
  }

  function FillAllByPrice(s: seq<Zone>, price: real): (r: seq<Zone>)
  {
    seq(|s|, i requires 0 <= i < |s| => ApplyPriceFill(s[i], price))
  }

  /** Bands overlap unless one lies at or above the other's top; touching bands do not overlap. */
  predicate ZonesOverlap(bottom1: real, top1: real, bottom2: real, top2: real)
  {
    !(bottom1 >= top2 || bottom2 >= top1)
  }

  /** Two zones clash when they have the same type, are both unfilled and overlap. */
  predicate Clash(x: Zone, y: Zone)
  {
    x.kind == y.kind && !x.filled && !y.filled && ZonesOverlap(x.bottom, x.top, y.bottom, y.top)
  }

  /** The invariant of the zone list: no two unfilled zones of the same type overlap. */
  predicate NoOverlap(s: seq<Zone>)
  {
    forall i, j :: 0 <= i < j < |s| ==> !Clash(s[i], s[j])
  }

  predicate Unfilled(z: Zone) { !z.filled }

  /** The list after purging filled zones. */
  function Clean(s: seq<Zone>): seq<Zone>
  {
    Filter(Unfilled, s)
  }

  /** An existing zone that a new zone `n` overlaps and would be compared with. */
  predicate Conflicts(e: Zone, n: Zone)
  {
    e.kind == n.kind && !e.filled && ZonesOverlap(e.bottom, e.top, n.bottom, n.top)
  }

  /** An existing conflicting zone that is strictly larger than `n`, so `n` replaces it. */
  predicate Evicted(e: Zone, n: Zone)
  {
    Conflicts(e, n) && n.gapSize < e.gapSize
  }

  /** `n` is a duplicate when some conflicting zone is no larger than it. */
  ghost predicate IsDuplicate(active: seq<Zone>, n: Zone)
  {
    exists i :: 0 <= i < |active| && Conflicts(active[i], n) && !(n.gapSize < active[i].gapSize)
  }

  /** `active` without the zones that `n` evicts, in their original order. */
  function WithoutLarger(active: seq<Zone>, n: Zone): (r: seq<Zone>)
    ensures |r| <= |active|
    decreases |active|
  {
    if active == [] then []
    else
      var last := active[|active| - 1];
      WithoutLarger(active[..|active| - 1], n) + (if Evicted(last, n) then [] else [last])
  }

  /** Exactly the zones `n` does not evict survive. */
  lemma {:induction false} WithoutLargerMembers(active: seq<Zone>, n: Zone)
    ensures forall i :: 0 <= i < |WithoutLarger(active, n)| ==>
              WithoutLarger(active, n)[i] in active && !Evicted(WithoutLarger(active, n)[i], n)
    ensures forall i :: 0 <= i < |active| && !Evicted(active[i], n) ==> active[i] in WithoutLarger(active, n)
    decreases |active|
  {
    if active != [] {
      WithoutLargerMembers(active[..|active| - 1], n);
      var r := WithoutLarger(active, n);
      var r' := WithoutLarger(active[..|active| - 1], n);
      forall i | 0 <= i < |active| && !Evicted(active[i], n) ensures active[i] in r {
        if i < |active| - 1 {
          assert active[..|active| - 1][i] == active[i];
        }
      }
    }
  }

  lemma {:induction false} WithoutLargerConcat(a: seq<Zone>, b: seq<Zone>, n: Zone)
    ensures WithoutLarger(a + b, n) == WithoutLarger(a, n) + WithoutLarger(b, n)
    decreases |b|
  {
    if b == [] {
      assert a + b == a;
    } else {
      assert (a + b)[..|a + b| - 1] == a + b[..|b| - 1];
      WithoutLargerConcat(a, b[..|b| - 1], n);
    }
  }

  lemma {:induction false} WithoutLargerKeepsAll(a: seq<Zone>, n: Zone)
    requires forall i :: 0 <= i < |a| ==> !Evicted(a[i], n)
    ensures WithoutLarger(a, n) == a
    decreases |a|
  {
    if a != [] {
      WithoutLargerKeepsAll(a[..|a| - 1], n);
    }
  }

  /** The zone list after offering `n`: unchanged if it is a duplicate, else larger rivals out and `n` appended. */
  ghost function AddZone(active: seq<Zone>, n: Zone): seq<Zone>
  {
    if IsDuplicate(active, n) then active else WithoutLarger(active, n) + [n]
  }

  /** The zone list after `find_new_fvgs` at `ci`. */
  ghost function NewFvgsStep(active: seq<Zone>, bars: seq<Bar>, ci: int): seq<Zone>
    requires ci < |bars|
  {
    if ci < 2 then active
    else
      var added := match TripleZone(bars, ci, MinGapSize)
                   case None => active
                   case Some(z) => AddZone(active, z);
      Clean(added)
  }

  /** One zone of the start-up scan: kept only if no later bar fills it and it is not a duplicate. */
  ghost function LoadStep(active: seq<Zone>, z: Zone, bars: seq<Bar>): seq<Zone>
  {
    if FilledAfter(z, bars, z.index) then active else AddZone(active, z)
  }

  ghost function LoadZones(active: seq<Zone>, zs: seq<Zone>, bars: seq<Bar>): seq<Zone>
    decreases |zs|
  {
    if zs == [] then active
    else LoadStep(LoadZones(active, zs[..|zs| - 1], bars), zs[|zs| - 1], bars)
  }

  /** The zone list after `load_historical_fvgs` on `bars`. */
  ghost function LoadHistorical(active: seq<Zone>, bars: seq<Bar>): seq<Zone>
  {
    if |bars| < 3 then active else LoadZones(active, ScanZones(bars, |bars|, MinGapSize), bars)
  }

  // ---------------------------------------------------------------------
  // Properties of the specification
  // ---------------------------------------------------------------------

  lemma ZonesOverlapSymmetric(b1: real, t1: real, b2: real, t2: real)
    ensures ZonesOverlap(b1, t1, b2, t2) == ZonesOverlap(b2, t2, b1, t1)
    ensures t2 == b1 ==> !ZonesOverlap(b1, t1, b2, t2)
  {
  }

  /** The bar that creates a zone never fills it. */
  lemma CreatingBarNeverFills(bars: seq<Bar>, i: int, minGap: real)
    requires 2 <= i < |bars|
    requires TripleZone(bars, i, minGap).Some?
    ensures !BarFills(TripleZone(bars, i, minGap).value, bars[i])
  {
  }

  lemma {:induction false} NoOverlapFilter(p: Zone -> bool, s: seq<Zone>)
    requires NoOverlap(s)
    ensures NoOverlap(Filter(p, s))
    decreases |s|
  {
    if s != [] {
      var s' := s[..|s| - 1];
      var last := s[|s| - 1];
      assert NoOverlap(s') by {
        forall i, j | 0 <= i < j < |s'| ensures !Clash(s'[i], s'[j]) {
          assert s'[i] == s[i] && s'[j] == s[j];
        }
      }
      NoOverlapFilter(p, s');
      var f := Filter(p, s');
      if p(last) {
        forall i, j | 0 <= i < j < |f + [last]| ensures !Clash((f + [last])[i], (f + [last])[j]) {
          if j == |f| {
            assert f[i] in s';
            var k :| 0 <= k < |s'| && s'[k] == f[i];
            assert s[k] == f[i] && k < |s| - 1;
          } else {
            assert (f + [last])[i] == f[i] && (f + [last])[j] == f[j];
          }
        }
      }
    }
  }

  lemma {:induction false} NoOverlapWithoutLarger(s: seq<Zone>, n: Zone)
    requires NoOverlap(s)
    ensures NoOverlap(WithoutLarger(s, n))
    decreases |s|
  {
    if s != [] {
      var s' := s[..|s| - 1];
      var last := s[|s| - 1];
      assert NoOverlap(s') by {
        forall i, j | 0 <= i < j < |s'| ensures !Clash(s'[i], s'[j]) {
          assert s'[i] == s[i] && s'[j] == s[j];
        }
      }
      NoOverlapWithoutLarger(s', n);
      WithoutLargerMembers(s', n);
      var f := WithoutLarger(s', n);
      if !Evicted(last, n) {
        forall i, j | 0 <= i < j < |f + [last]| ensures !Clash((f + [last])[i], (f + [last])[j]) {
          if j == |f| {
            assert f[i] in s';
            var k :| 0 <= k < |s'| && s'[k] == f[i];
            assert s[k] == f[i] && k < |s| - 1;
          } else {
            assert (f + [last])[i] == f[i] && (f + [last])[j] == f[j];
          }
        }
      }
    }
  }

  /** Offering a zone keeps the list free of overlaps. */
  lemma AddZonePreservesNoOverlap(active: seq<Zone>, n: Zone)
    requires NoOverlap(active)
    ensures NoOverlap(AddZone(active, n))
  {
    if !IsDuplicate(active, n) {
      var w := WithoutLarger(active, n);
      NoOverlapWithoutLarger(active, n);
      WithoutLargerMembers(active, n);
      forall i | 0 <= i < |w| ensures !Clash(w[i], n) {
        assert w[i] in active && !Evicted(w[i], n);
        var k :| 0 <= k < |active| && active[k] == w[i];
        if Clash(w[i], n) {
          assert Conflicts(active[k], n);
          assert false;
        }
      }
      forall i, j | 0 <= i < j < |w + [n]| ensures !Clash((w + [n])[i], (w + [n])[j]) {
        if j == |w| {
          assert (w + [n])[i] == w[i];
        } else {
          assert (w + [n])[i] == w[i] && (w + [n])[j] == w[j];
        }
      }
    }
  }

  lemma FillByBarPreservesNoOverlap(s: seq<Zone>, b: Bar)
    requires NoOverlap(s)
    ensures NoOverlap(FillAllByBar(s, b))
  {
  }

  lemma FillByPricePreservesNoOverlap(s: seq<Zone>, price: real)
    requires NoOverlap(s)
    ensures NoOverlap(FillAllByPrice(s, price))
  {
  }

  lemma CleanPreservesNoOverlap(s: seq<Zone>)
    requires NoOverlap(s)
    ensures NoOverlap(Clean(s))
  {
    NoOverlapFilter(Unfilled, s);
  }

  /** Purging keeps exactly the unfilled zones, and purging twice is purging once. */
  lemma CleanKeepsExactlyUnfilled(s: seq<Zone>)
    ensures forall i :: 0 <= i < |Clean(s)| ==> !Clean(s)[i].filled && Clean(s)[i] in s
    ensures forall i :: 0 <= i < |s| && !s[i].filled ==> s[i] in Clean(s)
    ensures Clean(Clean(s)) == Clean(s)
  {
    FilterIdempotent(Unfilled, s);
  }

  lemma NewFvgsPreservesNoOverlap(active: seq<Zone>, bars: seq<Bar>, ci: int)
    requires ci < |bars|
    requires NoOverlap(active)
    ensures NoOverlap(NewFvgsStep(active, bars, ci))
  {
    if ci >= 2 {
      match TripleZone(bars, ci, MinGapSize)
      case None => CleanPreservesNoOverlap(active);
      case Some(z) =>
        AddZonePreservesNoOverlap(active, z);
        CleanPreservesNoOverlap(AddZone(active, z));
    }
  }

  lemma {:induction false} LoadZonesPreservesNoOverlap(active: seq<Zone>, zs: seq<Zone>, bars: seq<Bar>)
    requires NoOverlap(active)
    ensures NoOverlap(LoadZones(active, zs, bars))
    decreases |zs|
  {
    if zs != [] {
      var prev := LoadZones(active, zs[..|zs| - 1], bars);
      LoadZonesPreservesNoOverlap(active, zs[..|zs| - 1], bars);
      AddZonePreservesNoOverlap(prev, zs[|zs| - 1]);
    }
  }

  lemma LoadHistoricalPreservesNoOverlap(active: seq<Zone>, bars: seq<Bar>)
    requires NoOverlap(active)
    ensures NoOverlap(LoadHistorical(active, bars))
  {
    if |bars| >= 3 {
      LoadZonesPreservesNoOverlap(active, ScanZones(bars, |bars|, MinGapSize), bars);
    }
  }

  lemma LoadZonesSnoc(active: seq<Zone>, zs: seq<Zone>, i: int, bars: seq<Bar>)
    requires 0 <= i < |zs|
    ensures LoadZones(active, zs[..i + 1], bars) == LoadStep(LoadZones(active, zs[..i], bars), zs[i], bars)
  {
    assert zs[..i + 1][..i] == zs[..i];
  }

  /** Every zone the start-up scan adds was offered and is not filled by any later bar. */
  lemma {:induction false} LoadZonesAddsOnlyUnfilled(active: seq<Zone>, zs: seq<Zone>, bars: seq<Bar>, z: Zone)
    requires z in LoadZones(active, zs, bars) && z !in active
    ensures z in zs && !FilledAfter(z, bars, z.index)
    decreases |zs|
  {
    var init := zs[..|zs| - 1];
    var n := zs[|zs| - 1];
    var prev := LoadZones(active, init, bars);
    if z in prev {
      LoadZonesAddsOnlyUnfilled(active, init, bars, z);
      assert z in zs;
    } else {
      if !FilledAfter(n, bars, n.index) && !IsDuplicate(prev, n) {
        var w := WithoutLarger(prev, n);
        WithoutLargerMembers(prev, n);
        assert z in w + [n];
        assert z !in w;
      }
      assert z == n;
    }
  }

  /** A zone created by `find_new_fvgs` survives the fill check run on the same bar. */
  lemma NewZoneSurvivesSameBarFill(active: seq<Zone>, bars: seq<Bar>, ci: int, z: Zone)
    requires 2 <= ci < |bars|
    requires TripleZone(bars, ci, MinGapSize) == Some(z)
    requires !IsDuplicate(active, z)
    ensures z in NewFvgsStep(active, bars, ci)
    ensures ApplyBarFill(z, bars[ci]) == z
  {
    var added := AddZone(active, z);
    assert added[|added| - 1] == z;
    assert z in Clean(added);
  }

  // ---------------------------------------------------------------------
  // The display object and its zone list
  // ---------------------------------------------------------------------

  /** Scan the whole bar list for zones (`find_fvgs_in_data` from index 2). */
  method FindFvgsInData(bars: seq<Bar>) returns (fvgs: seq<Zone>)
    ensures fvgs == ScanZones(bars, |bars|, MinGapSize)
  {
    fvgs := [];
    var i := 2;
    while i < |bars|
      invariant 2 <= i
      invariant i <= |bars| || i == 2
      invariant fvgs == ScanZones(bars, if i <= |bars| then i else |bars|, MinGapSize)
    {
      var z := TripleZone(bars, i, MinGapSize);
      if z.Some? {
        fvgs := fvgs + [z.value];
      }
      i := i + 1;
    }
  }

  /** Is `z` filled by any bar after index `start`; the first such bar ends the scan. */
  method IsFvgFilled(z: Zone, bars: seq<Bar>, start: nat) returns (filled: bool)
    ensures filled <==> FilledAfter(z, bars, start)
  {
    var j := start + 1;
    while j < |bars|
      invariant start + 1 <= j
      invariant forall k :: start < k < j && k < |bars| ==> !BarFills(z, bars[k])
    {
      if BarFills(z, bars[j]) {
        return true;
      }
      j := j + 1;
    }
    return false;
  }

  class FvgDisplay {
    var activeFvgs: seq<Zone>
    var lastProcessedBarTime: Option<int>

    ghost predicate Valid()
      reads this
    {
      NoOverlap(activeFvgs)
    }

    constructor ()
      ensures Valid()
      ensures activeFvgs == [] && lastProcessedBarTime == None
    {
      activeFvgs := [];
      lastProcessedBarTime := None;
    }

    /**
     * Compare `n` with the unfilled zones of its type that it overlaps. Meeting
     * one no larger than `n` answers true at once and leaves the list alone;
     * otherwise every strictly larger rival is popped, last index first.
     */
    method IsDuplicateZone(n: Zone) returns (dup: bool)
      modifies this`activeFvgs
      ensures dup == IsDuplicate(old(activeFvgs), n)
      ensures activeFvgs == if dup then old(activeFvgs) else WithoutLarger(old(activeFvgs), n)
    {
      ghost var a := activeFvgs;
      var toRemove: seq<int> := [];
      var i := 0;
      while i < |activeFvgs|
        invariant 0 <= i <= |activeFvgs|
        invariant activeFvgs == a
        invariant forall k :: 0 <= k < i && Conflicts(a[k], n) ==> n.gapSize < a[k].gapSize
        invariant forall k :: 0 <= k < |toRemove| ==> 0 <= toRemove[k] < i && Evicted(a[toRemove[k]], n)
        invariant forall k, l :: 0 <= k < l < |toRemove| ==> toRemove[k] < toRemove[l]
        invariant forall j :: 0 <= j < i && Evicted(a[j], n) ==> j in toRemove
      {
        var e := activeFvgs[i];
        if e.kind == n.kind && !e.filled && ZonesOverlap(e.bottom, e.top, n.bottom, n.top) {
          if n.gapSize < e.gapSize {
            toRemove := toRemove + [i];
          } else {
            assert Conflicts(a[i], n) && !(n.gapSize < a[i].gapSize);
            return true;
          }
        }
        i := i + 1;
      }
      assert !IsDuplicate(a, n);
      var k := |toRemove|;
      while k > 0
        invariant 0 <= k <= |toRemove|
        invariant var c := if k == |toRemove| then |a| else toRemove[k];
                  activeFvgs == a[..c] + WithoutLarger(a[c..], n)
      {
        ghost var c := if k == |toRemove| then |a| else toRemove[k];
        k := k - 1;
        var p := toRemove[k];
        RemoveEvictedAt(a, n, p, c, toRemove, k);
        activeFvgs := activeFvgs[..p] + activeFvgs[p + 1..];
      }
      ghost var c := if |toRemove| == 0 then |a| else toRemove[0];
      NoEvictedBefore(a, n, c, toRemove);
      return false;
    }

    /** Look for a zone formed by the latest bar, offer it, then purge filled zones. */
    method FindNewFvgs(bars: seq<Bar>, currentIndex: int)
      requires currentIndex < |bars|
      requires Valid()
      modifies this`activeFvgs
      ensures Valid()
      ensures activeFvgs == NewFvgsStep(old(activeFvgs), bars, currentIndex)
    {
      if currentIndex < 2 {
        return;
      }
      ghost var a := activeFvgs;
      NewFvgsPreservesNoOverlap(a, bars, currentIndex);
      var z := TripleZone(bars, currentIndex, MinGapSize);
      if z.Some? {
        var dup := IsDuplicateZone(z.value);
        if !dup {
          activeFvgs := activeFvgs + [z.value];
        }
      }
      CleanOldFvgs(currentIndex, None);
    }

    /** Flip to filled every unfilled zone that the completed bar at `currentIndex` reaches. */
    method CheckFvgFillStatus(bars: seq<Bar>, currentIndex: nat)
      requires currentIndex < |bars|
      requires Valid()
      modifies this`activeFvgs
      ensures Valid()
      ensures activeFvgs == FillAllByBar(old(activeFvgs), bars[currentIndex])
    {
      ghost var a := activeFvgs;
      FillByBarPreservesNoOverlap(a, bars[currentIndex]);
      var bar := bars[currentIndex];
      var i := 0;
      while i < |activeFvgs|
        invariant 0 <= i <= |activeFvgs| == |a|
        invariant forall k :: 0 <= k < i ==> activeFvgs[k] == ApplyBarFill(a[k], bar)
        invariant forall k :: i <= k < |a| ==> activeFvgs[k] == a[k]
      {
        var z := activeFvgs[i];
        if !z.filled {
          if z.kind == Bullish && bar.low <= z.bottom {
            activeFvgs := activeFvgs[i := z.(filled := true)];
          } else if z.kind == Bearish && bar.high >= z.top {
            activeFvgs := activeFvgs[i := z.(filled := true)];
          }
        }
        i := i + 1;
      }
    }

    /** Flip to filled every unfilled zone that the live price reaches. */
    method CheckLiveFvgFills(currentPrice: real)
      requires Valid()
      modifies this`activeFvgs
      ensures Valid()
      ensures activeFvgs == FillAllByPrice(old(activeFvgs), currentPrice)
    {
      ghost var a := activeFvgs;
      FillByPricePreservesNoOverlap(a, currentPrice);
      var i := 0;
      while i < |activeFvgs|
        invariant 0 <= i <= |activeFvgs| == |a|
        invariant forall k :: 0 <= k < i ==> activeFvgs[k] == ApplyPriceFill(a[k], currentPrice)
        invariant forall k :: i <= k < |a| ==> activeFvgs[k] == a[k]
      {
        var z := activeFvgs[i];
        if !z.filled {
          if z.kind == Bearish && currentPrice >= z.top {
            activeFvgs := activeFvgs[i := z.(filled := true)];
          } else if z.kind == Bullish && currentPrice <= z.bottom {
            activeFvgs := activeFvgs[i := z.(filled := true)];
          }
        }
        i := i + 1;
      }
    }

    /** Scan the bar history at start-up and keep the zones no later bar has filled. */
    method LoadHistoricalFvgs(bars: seq<Bar>)
      requires Valid()
      modifies this`activeFvgs
      ensures Valid()
      ensures activeFvgs == LoadHistorical(old(activeFvgs), bars)
    {
      LoadHistoricalPreservesNoOverlap(activeFvgs, bars);
      if |bars| < 3 {
        return;
      }
      var historical := FindFvgsInData(bars);
      OfferUnfilledZones(historical, bars);
    }

    /** The loop of `load_historical_fvgs`: offer each scanned zone that no later bar has filled. */
    method OfferUnfilledZones(historical: seq<Zone>, bars: seq<Bar>)
      requires forall k :: 0 <= k < |historical| ==> historical[k].index >= 0
      modifies this`activeFvgs
      ensures activeFvgs == LoadZones(old(activeFvgs), historical, bars)
    {
      ghost var a := activeFvgs;
      var i := 0;
      while i < |historical|
        invariant 0 <= i <= |historical|
        invariant activeFvgs == LoadZones(a, historical[..i], bars)
      {
        var z := historical[i];
        ghost var before := activeFvgs;
        var filled := IsFvgFilled(z, bars, z.index);
        if !filled {
          var dup := IsDuplicateZone(z);
          if !dup {
            activeFvgs := activeFvgs + [z];
          }
        }
        assert activeFvgs == LoadStep(before, z, bars);
        LoadZonesSnoc(a, historical, i, bars);
        i := i + 1;
      }
      assert historical[..i] == historical;
    }

    /** Purge filled zones; the index and price arguments are accepted and ignored. */
    method CleanOldFvgs(currentIndex: int, currentPrice: Option<real>)
      modifies this`activeFvgs
      ensures activeFvgs == Clean(old(activeFvgs))
    {
      var cleaned: seq<Zone> := [];
      var i := 0;
      while i < |activeFvgs|
        invariant 0 <= i <= |activeFvgs|
        invariant cleaned == Clean(activeFvgs[..i])
      {
        assert activeFvgs[..i + 1][..i] == activeFvgs[..i];
        if !activeFvgs[i].filled {
          cleaned := cleaned + [activeFvgs[i]];
        }
        i := i + 1;
      }
      assert activeFvgs[..i] == activeFvgs;
      activeFvgs := cleaned;
    }

    /**
     * On a new last bar (its time differs from the one last processed), look for a
     * new zone and then check fills with that same bar; fewer than 3 bars do nothing.
     */
    method ProcessHistoricalBars(bars: seq<Bar>)
      requires Valid()
      modifies this
      ensures Valid()
      ensures |bars| < 3 || old(lastProcessedBarTime) == Some(bars[|bars| - 1].time) ==>
                activeFvgs == old(activeFvgs) && lastProcessedBarTime == old(lastProcessedBarTime)
      ensures |bars| >= 3 && old(lastProcessedBarTime) != Some(bars[|bars| - 1].time) ==>
                activeFvgs == FillAllByBar(NewFvgsStep(old(activeFvgs), bars, |bars| - 1), bars[|bars| - 1])
                && lastProcessedBarTime == Some(bars[|bars| - 1].time)
    {
      if |bars| < 3 {
        return;
      }
      var latest := bars[|bars| - 1].time;
      var currentIndex := |bars| - 1;
      if lastProcessedBarTime != Some(latest) {
        FindNewFvgs(bars, currentIndex);
        CheckFvgFillStatus(bars, currentIndex);
        lastProcessedBarTime := Some(latest);
      }
    }
  }

  // ---------------------------------------------------------------------
  // Helpers for the popping loop of IsDuplicateZone
  // ---------------------------------------------------------------------

  /** No recorded-for-eviction zone lies strictly between two consecutive recorded indices. */
  lemma NoneEvictedBetween(a: seq<Zone>, n: Zone, p: int, c: int, toRemove: seq<int>, k: nat)
    requires k < |toRemove|
    requires forall t :: 0 <= t < |toRemove| ==> 0 <= toRemove[t] < |a| && Evicted(a[toRemove[t]], n)
    requires forall t, l :: 0 <= t < l < |toRemove| ==> toRemove[t] < toRemove[l]
    requires forall j :: 0 <= j < |a| && Evicted(a[j], n) ==> j in toRemove
    requires p == toRemove[k]
    requires c == if k + 1 == |toRemove| then |a| else toRemove[k + 1]
    ensures 0 <= p < c <= |a|
    ensures forall j :: p < j < c ==> !Evicted(a[j], n)
  {
    forall j | p < j < c ensures !Evicted(a[j], n) {
      forall t | 0 <= t < |toRemove| ensures toRemove[t] != j {
        if t < k {
          assert toRemove[t] < toRemove[k];
        } else if t > k + 1 {
          assert toRemove[k + 1] < toRemove[t];
        }
      }
    }
  }

  /** Popping index p (the next recorded index below c, with none evicted strictly between). */
  lemma RemoveEvictedAt(a: seq<Zone>, n: Zone, p: int, c: int, toRemove: seq<int>, k: nat)
    requires k < |toRemove|
    requires forall t :: 0 <= t < |toRemove| ==> 0 <= toRemove[t] < |a| && Evicted(a[toRemove[t]], n)
    requires forall t, l :: 0 <= t < l < |toRemove| ==> toRemove[t] < toRemove[l]
    requires forall j :: 0 <= j < |a| && Evicted(a[j], n) ==> j in toRemove
    requires p == toRemove[k]
    requires c == if k + 1 == |toRemove| then |a| else toRemove[k + 1]
    ensures 0 <= p < c <= |a|
    ensures (a[..c] + WithoutLarger(a[c..], n))[..p] + (a[..c] + WithoutLarger(a[c..], n))[p + 1..]
            == a[..p] + WithoutLarger(a[p..], n)
  {
    NoneEvictedBetween(a, n, p, c, toRemove, k);
    SpliceLemma(a, n, p, c);
  }

  lemma DropEvictedHead(a: seq<Zone>, n: Zone, p: int, c: int)
    requires 0 <= p < c <= |a|
    requires Evicted(a[p], n)
    requires forall j :: p < j < c ==> !Evicted(a[j], n)
    ensures WithoutLarger(a[p..], n) == a[p + 1..c] + WithoutLarger(a[c..], n)
  {
    var mid, rest := a[p + 1..c], a[c..];
    forall j | 0 <= j < |mid| ensures !Evicted(mid[j], n) {
      assert mid[j] == a[p + 1 + j];
    }
    assert a[p..] == ([a[p]] + mid) + rest;
    DropHeadParts(a[p], mid, rest, n);
  }

  /** An evicted head followed by kept zones: the filter drops the head and keeps the middle. */
  lemma DropHeadParts(x: Zone, mid: seq<Zone>, rest: seq<Zone>, n: Zone)
    requires Evicted(x, n)
    requires forall j :: 0 <= j < |mid| ==> !Evicted(mid[j], n)
    ensures WithoutLarger(([x] + mid) + rest, n) == mid + WithoutLarger(rest, n)
  {
    var h := [x];
    var hm := h + mid;
    WithoutLargerKeepsAll(mid, n);
    DropSingle(x, n);
    WithoutLargerConcat(h, mid, n);
    assert WithoutLarger(hm, n) == mid;
    WithoutLargerConcat(hm, rest, n);
  }

  lemma DropSingle(x: Zone, n: Zone)
    requires Evicted(x, n)
    ensures WithoutLarger([x], n) == []
  {
    assert [x][..0] == [];
  }

  lemma SpliceLemma(a: seq<Zone>, n: Zone, p: int, c: int)
    requires 0 <= p < c <= |a|
    requires Evicted(a[p], n)
    requires forall j :: p < j < c ==> !Evicted(a[j], n)
    ensures (a[..c] + WithoutLarger(a[c..], n))[..p] + (a[..c] + WithoutLarger(a[c..], n))[p + 1..]
            == a[..p] + WithoutLarger(a[p..], n)
  {
    DropEvictedHead(a, n, p, c);
    var tail := WithoutLarger(a[c..], n);
    var cur := a[..c] + tail;
    assert cur[..p] == a[..p];
    assert cur[p + 1..] == a[p + 1..c] + tail;
  }

  /** No zone before the first recorded index is evicted, so the final list is the filter of all of `a`. */
  lemma NoEvictedBefore(a: seq<Zone>, n: Zone, c: int, toRemove: seq<int>)
    requires forall t :: 0 <= t < |toRemove| ==> 0 <= toRemove[t] < |a| && Evicted(a[toRemove[t]], n)
    requires forall t, l :: 0 <= t < l < |toRemove| ==> toRemove[t] < toRemove[l]
    requires forall j :: 0 <= j < |a| && Evicted(a[j], n) ==> j in toRemove
    requires c == if |toRemove| == 0 then |a| else toRemove[0]
    ensures a[..c] + WithoutLarger(a[c..], n) == WithoutLarger(a, n)
  {
    var pre := a[..c];
    assert forall t :: 0 <= t < |toRemove| ==> c <= toRemove[t] by {
      forall t | 0 < t < |toRemove| ensures c <= toRemove[t] {
        assert toRemove[0] < toRemove[t];
      }
    }
    forall j | 0 <= j < |pre| ensures !Evicted(pre[j], n) {
      assert j !in toRemove;
    }
    WithoutLargerKeepsAll(pre, n);
    assert a == pre + a[c..];
    WithoutLargerConcat(pre, a[c..], n);
  }
}
