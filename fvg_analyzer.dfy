/**
 * The zone analyzer (src/fvg_analyzer.py): partitions exported zones by
 * type, filters them by size and age, finds the nearest zone on the correct
 * side of price and the zone (if any) the price is inside.
 */
module FvgAnalyzer {
  import opened Common
  import opened Sorting

  /** A zone as exported by the live engine; `filled`, `ageBars` and `index` may be absent. */
  datatype RawFvg = RawFvg(kind: string, top: real, bottom: real, gapSize: real, time: int,
                           filled: Option<bool>, ageBars: Option<int>, index: Option<int>)

  /** A parsed zone: `gap_size` renamed to `size`, absent age and index read as 0. */
  datatype FvgData = FvgData(top: real, bottom: real, size: real, time: int, ageBars: int, index: int)

  datatype FvgZones = FvgZones(bullish: seq<FvgData>, bearish: seq<FvgData>)

  /** A candidate zone with its signed and absolute distance from price. */
  datatype NearestZone = NearestZone(zone: FvgData, distance: real, distanceAbs: real)

  datatype Nearest = Nearest(nearestBullish: Option<NearestZone>, nearestBearish: Option<NearestZone>)

  datatype ActiveZone = ActiveZone(kind: string, zone: FvgData)

  datatype MarketContext = MarketContext(
    currentPrice: real,
    totalBullishFvgs: nat,
    totalBearishFvgs: nat,
    nearestBullishFvg: Option<NearestZone>,
    nearestBearishFvg: Option<NearestZone>,
    priceInZone: Option<ActiveZone>,
    allFvgs: FvgZones)

  datatype AnalyzerConfig = AnalyzerConfig(minGapSize: real, maxGapAge: int)

  const DefaultConfig: AnalyzerConfig := AnalyzerConfig(5.0, 100)

  // ---------------------------------------------------------------------
  // Parsing
  // ---------------------------------------------------------------------

  predicate IsFilled(f: RawFvg) { f.filled == Some(true) }

  function ToData(f: RawFvg): FvgData
  {
    FvgData(f.top, f.bottom, f.gapSize, f.time,
            if f.ageBars.Some? then f.ageBars.value else 0,
            if f.index.Some? then f.index.value else 0)
  }

  function MapToData(fs: seq<RawFvg>): (r: seq<FvgData>)
    ensures |r| == |fs| && forall i :: 0 <= i < |fs| ==> r[i] == ToData(fs[i])
  {
    seq(|fs|, i requires 0 <= i < |fs| => ToData(fs[i]))
  }

  /** Skip filled zones and route the rest by type; a type other than bullish or bearish is dropped. */
  function ParseFvgZones(active: seq<RawFvg>): (r: FvgZones)
    decreases |active|
  {
    if active == [] then FvgZones([], [])
    else
      var prev := ParseFvgZones(active[..|active| - 1]);
      var f := active[|active| - 1];
      if IsFilled(f) then prev
      else if f.kind == "bullish" then FvgZones(prev.bullish + [ToData(f)], prev.bearish)
      else if f.kind == "bearish" then FvgZones(prev.bullish, prev.bearish + [ToData(f)])
      else prev
  }

  predicate UnfilledOfKind(kind: string, f: RawFvg) { !IsFilled(f) && f.kind == kind }

  /** Each list is the input's unfilled zones of that type, in input order, converted. */
  lemma {:induction false} ParseIsFilterThenConvert(active: seq<RawFvg>)
    ensures ParseFvgZones(active).bullish == MapToData(Filter(f => UnfilledOfKind("bullish", f), active))
    ensures ParseFvgZones(active).bearish == MapToData(Filter(f => UnfilledOfKind("bearish", f), active))
    decreases |active|
  {
    if active != [] {
      var init, f := active[..|active| - 1], active[|active| - 1];
      ParseIsFilterThenConvert(init);
      var bull, bear := f => UnfilledOfKind("bullish", f), f => UnfilledOfKind("bearish", f);
      assert Filter(bull, active) == Filter(bull, init) + (if bull(f) then [f] else []);
      assert Filter(bear, active) == Filter(bear, init) + (if bear(f) then [f] else []);
      MapToDataSnoc(Filter(bull, init), f);
      MapToDataSnoc(Filter(bear, init), f);
    }
  }

  lemma MapToDataSnoc(fs: seq<RawFvg>, f: RawFvg)
    ensures MapToData(fs + [f]) == MapToData(fs) + [ToData(f)]
  {
  }

  // ---------------------------------------------------------------------
  // Distance and nearest zone
  // ---------------------------------------------------------------------

  /** Signed distance to the zone's target edge: the top of a bullish zone, the bottom otherwise. */
  function CalculateDistance(currentPrice: real, fvg: FvgData, fvgType: string): (d: real)
    ensures fvgType == "bullish" ==> d == fvg.top - currentPrice
    ensures fvgType != "bullish" ==> d == fvg.bottom - currentPrice
  {
    if fvgType == "bullish" then fvg.top - currentPrice else fvg.bottom - currentPrice
  }

  /** The correct side: a bullish zone must lie wholly below price (top < price), a bearish one above. */
  predicate OnCorrectSide(kind: string, z: FvgData, price: real)
  {
    if kind == "bullish" then z.top < price else z.bottom > price
  }

  /** The zones of `zs` on the correct side, in list order. */
  function OnSide(kind: string, zs: seq<FvgData>, price: real): (r: seq<FvgData>)
    ensures forall z :: z in r ==> z in zs && OnCorrectSide(kind, z, price)
    decreases |zs|
  {
    if zs == [] then []
    else
      var z := zs[|zs| - 1];
      OnSide(kind, zs[..|zs| - 1], price) + (if OnCorrectSide(kind, z, price) then [z] else [])
  }

  function WithDistance(kind: string, z: FvgData, price: real): NearestZone
  {
    NearestZone(z, CalculateDistance(price, z, kind), Abs(CalculateDistance(price, z, kind)))
  }

  function MapWithDistance(kind: string, zs: seq<FvgData>, price: real): (r: seq<NearestZone>)
    ensures |r| == |zs|
    decreases |zs|
  {
    if zs == [] then []
    else MapWithDistance(kind, zs[..|zs| - 1], price) + [WithDistance(kind, zs[|zs| - 1], price)]
  }

  function DistanceAbs(n: NearestZone): real { n.distanceAbs }

  /** The zones on the correct side, with distances, stably sorted by absolute distance; the first one. */
  function NearestOf(kind: string, zs: seq<FvgData>, price: real): Option<NearestZone>
  {
    var sorted := SortByKey(DistanceAbs, MapWithDistance(kind, OnSide(kind, zs, price), price));
    if sorted == [] then None else Some(sorted[0])
  }

  function FindNearestFvgs(currentPrice: real, zones: FvgZones): Nearest
  {
    Nearest(NearestOf("bullish", zones.bullish, currentPrice), NearestOf("bearish", zones.bearish, currentPrice))
  }

  /**
   * Reference definition: a single left-to-right scan that replaces the best
   * candidate only on a strictly smaller absolute distance.
   */
  function ScanNearest(kind: string, zs: seq<FvgData>, price: real): Option<NearestZone>
    decreases |zs|
  {
    if zs == [] then None
    else
      var best := ScanNearest(kind, zs[..|zs| - 1], price);
      var z := zs[|zs| - 1];
      if OnCorrectSide(kind, z, price)
         && (best.None? || WithDistance(kind, z, price).distanceAbs < best.value.distanceAbs)
      then Some(WithDistance(kind, z, price))
      else best
  }

  /** Sorting and taking the head agrees with the scan. */
  lemma {:induction false} NearestIsScan(kind: string, zs: seq<FvgData>, price: real)
    ensures NearestOf(kind, zs, price) == ScanNearest(kind, zs, price)
    decreases |zs|
  {
    if zs != [] {
      var init, z := zs[..|zs| - 1], zs[|zs| - 1];
      NearestIsScan(kind, init, price);
      var below := OnSide(kind, init, price);
      var mapped := MapWithDistance(kind, below, price);
      var sorted := SortByKey(DistanceAbs, mapped);
      SortByKeySorted(DistanceAbs, mapped);
      if !OnCorrectSide(kind, z, price) {
        assert OnSide(kind, zs, price) == below;
      } else {
        var m2 := MapWithDistance(kind, below + [z], price);
        assert (below + [z])[..|below + [z]| - 1] == below;
        assert m2 == mapped + [WithDistance(kind, z, price)];
        assert m2[..|m2| - 1] == mapped;
        assert OnSide(kind, zs, price) == below + [z];
        assert SortByKey(DistanceAbs, m2) == Insert(DistanceAbs, sorted, WithDistance(kind, z, price));
        InsertHead(DistanceAbs, sorted, WithDistance(kind, z, price));
      }
    }
  }

  /**
   * Zone k is on the correct side, has the least absolute distance of all
   * zones on that side, and no earlier zone on that side ties it.
   */
  predicate NearestAt(kind: string, zs: seq<FvgData>, price: real, k: int)
  {
    0 <= k < |zs| && OnCorrectSide(kind, zs[k], price)
    && (forall j :: 0 <= j < |zs| && OnCorrectSide(kind, zs[j], price) ==>
          WithDistance(kind, zs[k], price).distanceAbs <= WithDistance(kind, zs[j], price).distanceAbs)
    && (forall j :: 0 <= j < k && OnCorrectSide(kind, zs[j], price) ==>
          WithDistance(kind, zs[k], price).distanceAbs < WithDistance(kind, zs[j], price).distanceAbs)
  }

  /**
   * The scan finds the first zone of least distance among those on the
   * correct side; it finds none exactly when no zone is on the correct side.
   */
  lemma {:induction false} ScanNearestSpec(kind: string, zs: seq<FvgData>, price: real)
    ensures ScanNearest(kind, zs, price).None? <==> forall i :: 0 <= i < |zs| ==> !OnCorrectSide(kind, zs[i], price)
    ensures ScanNearest(kind, zs, price).Some? ==>
              exists k :: NearestAt(kind, zs, price, k) && ScanNearest(kind, zs, price).value == WithDistance(kind, zs[k], price)
    decreases |zs|
  {
    if zs != [] {
      var init, z := zs[..|zs| - 1], zs[|zs| - 1];
      ScanNearestSpec(kind, init, price);
      assert forall i :: 0 <= i < |init| ==> init[i] == zs[i];
      var best := ScanNearest(kind, init, price);
      if best.Some? {
        var k :| NearestAt(kind, init, price, k) && best.value == WithDistance(kind, init[k], price);
        if OnCorrectSide(kind, z, price) && WithDistance(kind, z, price).distanceAbs < best.value.distanceAbs {
          forall i | 0 <= i < |zs| - 1 && OnCorrectSide(kind, zs[i], price)
            ensures WithDistance(kind, z, price).distanceAbs < WithDistance(kind, zs[i], price).distanceAbs
          {
            assert init[i] == zs[i];
          }
          NearestLast(kind, zs, price);
          assert ScanNearest(kind, zs, price).value == WithDistance(kind, zs[|zs| - 1], price);
        } else {
          NearestKept(kind, zs, price, k);
          assert ScanNearest(kind, zs, price).value == WithDistance(kind, zs[k], price);
        }
      } else if OnCorrectSide(kind, z, price) {
        assert forall i :: 0 <= i < |zs| - 1 ==> !OnCorrectSide(kind, zs[i], price);
        NearestLast(kind, zs, price);
        assert ScanNearest(kind, zs, price).value == WithDistance(kind, zs[|zs| - 1], price);
      }
    }
  }

  /** A last zone on the correct side, strictly nearer than every earlier one on that side, is the nearest. */
  lemma NearestLast(kind: string, zs: seq<FvgData>, price: real)
    requires |zs| > 0 && OnCorrectSide(kind, zs[|zs| - 1], price)
    requires forall i :: 0 <= i < |zs| - 1 && OnCorrectSide(kind, zs[i], price) ==>
               WithDistance(kind, zs[|zs| - 1], price).distanceAbs < WithDistance(kind, zs[i], price).distanceAbs
    ensures NearestAt(kind, zs, price, |zs| - 1)
  {
  }

  /** The nearest of the earlier zones stays the nearest when the last zone is not strictly nearer. */
  lemma NearestKept(kind: string, zs: seq<FvgData>, price: real, k: int)
    requires |zs| > 0 && NearestAt(kind, zs[..|zs| - 1], price, k)
    requires OnCorrectSide(kind, zs[|zs| - 1], price) ==>
               WithDistance(kind, zs[k], price).distanceAbs <= WithDistance(kind, zs[|zs| - 1], price).distanceAbs
    ensures NearestAt(kind, zs, price, k)
  {
    var init := zs[..|zs| - 1];
    assert forall i :: 0 <= i < |init| ==> init[i] == zs[i];
  }

  /** The nearest bullish zone lies below price (negative distance), the nearest bearish zone above. */
  lemma NearestSides(currentPrice: real, zones: FvgZones)
    ensures var n := FindNearestFvgs(currentPrice, zones);
            (n.nearestBullish.Some? ==> n.nearestBullish.value.zone.top < currentPrice
                                        && n.nearestBullish.value.distance < 0.0
                                        && n.nearestBullish.value.zone in zones.bullish)
            && (n.nearestBearish.Some? ==> n.nearestBearish.value.zone.bottom > currentPrice
                                           && n.nearestBearish.value.distance > 0.0
                                           && n.nearestBearish.value.zone in zones.bearish)
  {
    NearestIsScan("bullish", zones.bullish, currentPrice);
    NearestIsScan("bearish", zones.bearish, currentPrice);
    ScanNearestSpec("bullish", zones.bullish, currentPrice);
    ScanNearestSpec("bearish", zones.bearish, currentPrice);
  }

  // ---------------------------------------------------------------------
  // Zone membership
  // ---------------------------------------------------------------------

  /** Inclusive at both edges. */
  predicate CheckPriceInZone(currentPrice: real, fvg: FvgData)
  {
    fvg.bottom <= currentPrice <= fvg.top
  }

  /** The first zone of `zs`, in list order, that contains the price. */
  function FirstInZone(zs: seq<FvgData>, price: real): (r: Option<nat>)
    ensures r.Some? ==> r.value < |zs| && CheckPriceInZone(price, zs[r.value])
                        && forall j :: 0 <= j < r.value ==> !CheckPriceInZone(price, zs[j])
    ensures r.None? ==> forall j :: 0 <= j < |zs| ==> !CheckPriceInZone(price, zs[j])
    decreases |zs|
  {
    if zs == [] then None
    else if CheckPriceInZone(price, zs[0]) then Some(0)
    else
      match FirstInZone(zs[1..], price)
      case None => None
      case Some(k) => Some(k + 1)
  }

  /** Bullish zones are searched before bearish ones. */
  function FindActiveZone(currentPrice: real, zones: FvgZones): (r: Option<ActiveZone>)
    ensures r.Some? && r.value.kind == "bullish" ==> r.value.zone in zones.bullish && CheckPriceInZone(currentPrice, r.value.zone)
    ensures r.Some? && r.value.kind == "bearish" ==>
              r.value.zone in zones.bearish && CheckPriceInZone(currentPrice, r.value.zone)
              && forall j :: 0 <= j < |zones.bullish| ==> !CheckPriceInZone(currentPrice, zones.bullish[j])
    ensures r.Some? ==> r.value.kind == "bullish" || r.value.kind == "bearish"
    ensures r.None? <==> (forall j :: 0 <= j < |zones.bullish| ==> !CheckPriceInZone(currentPrice, zones.bullish[j]))
                         && (forall j :: 0 <= j < |zones.bearish| ==> !CheckPriceInZone(currentPrice, zones.bearish[j]))
  {
    match FirstInZone(zones.bullish, currentPrice)
    case Some(k) => Some(ActiveZone("bullish", zones.bullish[k]))
    case None =>
      match FirstInZone(zones.bearish, currentPrice)
      case Some(k) => Some(ActiveZone("bearish", zones.bearish[k]))
      case None => None
  }

  // ---------------------------------------------------------------------
  // Quality filter and the whole analysis
  // ---------------------------------------------------------------------

  /** Big enough and not older than the maximum (an age equal to the maximum is kept). */
  predicate QualityOk(cfg: AnalyzerConfig, z: FvgData)
  {
    !(z.size < cfg.minGapSize) && !(z.ageBars > cfg.maxGapAge)
  }

  function FilterQualityFvgs(cfg: AnalyzerConfig, zones: FvgZones): (r: FvgZones)
    ensures |r.bullish| <= |zones.bullish| && |r.bearish| <= |zones.bearish|
    ensures forall i :: 0 <= i < |r.bullish| ==> r.bullish[i] in zones.bullish && QualityOk(cfg, r.bullish[i])
    ensures forall i :: 0 <= i < |r.bearish| ==> r.bearish[i] in zones.bearish && QualityOk(cfg, r.bearish[i])
    ensures forall z :: z in r.bullish ==> QualityOk(cfg, z)
    ensures forall z :: z in r.bearish ==> QualityOk(cfg, z)
    ensures forall i :: 0 <= i < |zones.bullish| && QualityOk(cfg, zones.bullish[i]) ==> zones.bullish[i] in r.bullish
    ensures forall i :: 0 <= i < |zones.bearish| && QualityOk(cfg, zones.bearish[i]) ==> zones.bearish[i] in r.bearish
  {
    FvgZones(Filter(z => QualityOk(cfg, z), zones.bullish), Filter(z => QualityOk(cfg, z), zones.bearish))
  }

  /** Parse, filter, then look up nearest zones and the containing zone among the filtered zones only. */
  function AnalyzeMarketContext(cfg: AnalyzerConfig, currentPrice: real, active: seq<RawFvg>): MarketContext
  {
    var quality := FilterQualityFvgs(cfg, ParseFvgZones(active));
    var nearest := FindNearestFvgs(currentPrice, quality);
    MarketContext(currentPrice, |quality.bullish|, |quality.bearish|,
                  nearest.nearestBullish, nearest.nearestBearish,
                  FindActiveZone(currentPrice, quality), quality)
  }

  /** The reported totals count the filtered zones; every reported zone passed the quality filter. */
  lemma AnalyzeMarketContextSpec(cfg: AnalyzerConfig, currentPrice: real, active: seq<RawFvg>)
    ensures var c := AnalyzeMarketContext(cfg, currentPrice, active);
            c.totalBullishFvgs == |c.allFvgs.bullish| && c.totalBearishFvgs == |c.allFvgs.bearish|
            && (c.nearestBullishFvg.Some? ==> QualityOk(cfg, c.nearestBullishFvg.value.zone)
                                              && c.nearestBullishFvg.value.zone.top < currentPrice)
            && (c.nearestBearishFvg.Some? ==> QualityOk(cfg, c.nearestBearishFvg.value.zone)
                                              && c.nearestBearishFvg.value.zone.bottom > currentPrice)
            && (c.priceInZone.Some? ==> QualityOk(cfg, c.priceInZone.value.zone)
                                        && CheckPriceInZone(currentPrice, c.priceInZone.value.zone))
  {
    var quality := FilterQualityFvgs(cfg, ParseFvgZones(active));
    NearestSides(currentPrice, quality);
  }
}
