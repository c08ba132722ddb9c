/** `process_stone_holes`: keep the contours whose area is in the band, count them, total their areas and average
    their circularities. Grayscale conversion, Gaussian blur, the fixed threshold, the 3x3 open/close and
    `findContours` are OpenCV's; the model receives their outcome as a `ContourImage`. */
module HoleAnalysis {
  import opened Common
  import opened Stats
  import opened Detection

  /** The result dictionary: 孔洞数量, 总面积, 平均面积, 平均圆形度, 面积列表. */
  datatype HoleSummary = HoleSummary(holeCount: nat, totalArea: real, meanArea: real, meanCircularity: real, areas: seq<real>)

  /** Either the error string with three `None` images, or the summary (the three images are OpenCV's). */
  datatype HoleOutcome = ImageError(message: string) | HoleResult(summary: HoleSummary)

  const EmptyImageMessage: string := "错误：图像为空"

  /** `np.pi` and the `1e-10` guard, as exact reals. */
  const Pi: real := 3.141592653589793
  const CircularityEpsilon: real := 0.0000000001

  /** `4 * pi * area / (perimeter ** 2 + 1e-10)`. */
  function Circularity(c: Contour): real
  {
    (4.0 * Pi * c.area) / (c.perimeter * c.perimeter + CircularityEpsilon)
  }

  /** A circularity is recorded only for a contour with a positive perimeter. */
  function HasPerimeter(): Contour -> bool
  {
    (c: Contour) => c.perimeter > 0.0
  }

  /** The circularities recorded for the accepted contours, in order. */
  function Circularities(accepted: seq<Contour>): (r: seq<real>)
    ensures |r| <= |accepted|
  {
    var measured := Filter(accepted, HasPerimeter());
    seq(|measured|, i requires 0 <= i < |measured| => Circularity(measured[i]))
  }

  lemma CircularitiesSnoc(accepted: seq<Contour>, c: Contour)
    ensures Circularities(accepted + [c])
         == Circularities(accepted) + (if c.perimeter > 0.0 then [Circularity(c)] else [])
  {
    FilterSnoc(accepted, c, HasPerimeter());
  }

  /** The summary the loop builds for a list of accepted contours. */
  function Summary(accepted: seq<Contour>): HoleSummary
  {
    var total := Sum(Areas(accepted));
    var circ := Circularities(accepted);
    HoleSummary(|accepted|, total,
                if |accepted| > 0 then total / (|accepted| as real) else 0.0,
                if |circ| > 0 then Mean(circ) else 0.0,
                Areas(accepted))
  }

  /** The running totals of `process_stone_holes`'s loop agree with the contours accepted so far. */
  predicate HoleTally(accepted: seq<Contour>, holeCount: nat, totalHoleArea: real, circularities: seq<real>,
                      areas: seq<real>)
  {
    && holeCount == |accepted|
    && totalHoleArea == Sum(Areas(accepted))
    && circularities == Circularities(accepted)
    && areas == Areas(accepted)
  }

  /** The body of the accepted branch: count the hole, add its area, record its circularity when its perimeter is
      positive, and list its area. */
  method AddHole(ghost accepted: seq<Contour>, contour: Contour, holeCount: nat, totalHoleArea: real,
                 circularities: seq<real>, areas: seq<real>)
    returns (count': nat, total': real, circularities': seq<real>, areas': seq<real>)
    requires HoleTally(accepted, holeCount, totalHoleArea, circularities, areas)
    ensures HoleTally(accepted + [contour], count', total', circularities', areas')
  {
    AreasSnoc(accepted, contour);
    SumSnoc(Areas(accepted), contour.area);
    CircularitiesSnoc(accepted, contour);
    count' := holeCount + 1;
    total' := totalHoleArea + contour.area;
    circularities' := circularities;
    if contour.perimeter > 0.0 {
      var circularity := Circularity(contour);
      circularities' := circularities' + [circularity];
    }
    areas' := areas + [contour.area];
  }

  /** The loop of `process_stone_holes` over the contours (the drawing onto the result image is left out). */
  method ScanHoles(contours: seq<Contour>, minArea: real, maxArea: Bound)
    returns (holeCount: nat, totalHoleArea: real, circularities: seq<real>, areas: seq<real>)
    ensures holeCount == |InBandContours(contours, minArea, maxArea)|
    ensures totalHoleArea == Sum(Areas(InBandContours(contours, minArea, maxArea)))
    ensures circularities == Circularities(InBandContours(contours, minArea, maxArea))
    ensures areas == Areas(InBandContours(contours, minArea, maxArea))
  {
    holeCount, totalHoleArea, circularities, areas := 0, 0.0, [], [];
    var i := 0;
    ghost var accepted: seq<Contour> := [];
    while i < |contours|
      invariant 0 <= i <= |contours|
      invariant accepted == InBandContours(contours[..i], minArea, maxArea)
      invariant HoleTally(accepted, holeCount, totalHoleArea, circularities, areas)
    {
      var contour := contours[i];
      var area := contour.area;
      InBandStep(contours, i, minArea, maxArea);
      if minArea <= area && (maxArea.AtMost? ==> area <= maxArea.limit) {
        holeCount, totalHoleArea, circularities, areas :=
          AddHole(accepted, contour, holeCount, totalHoleArea, circularities, areas);
        accepted := accepted + [contour];
      } else {
        assert accepted + [] == accepted;
      }
      i := i + 1;
    }
    assert contours[..|contours|] == contours;
  }

  /** `process_stone_holes(image, min_area=1, max_area=1000, threshold_val=100)`. */
  method ProcessStoneHoles(image: Option<ContourImage>, minArea: real := 1.0, maxArea: Bound := AtMost(1000.0),
                           threshold: int := 100)
    returns (r: HoleOutcome)
    ensures image.None? <==> r.ImageError?
    ensures image.None? ==> r.message == EmptyImageMessage
    ensures image.Some? ==> r.summary == Summary(InBandContours(image.value.contoursAt(threshold), minArea, maxArea))
  {
    if image.None? {
      return ImageError(EmptyImageMessage);
    }
    var contours := image.value.contoursAt(threshold);
    var holeCount, totalHoleArea, circularities, areas := ScanHoles(contours, minArea, maxArea);
    var meanArea := if holeCount > 0 then totalHoleArea / (holeCount as real) else 0.0;
    var meanCircularity := if |circularities| > 0 then Mean(circularities) else 0.0;
    r := HoleResult(HoleSummary(holeCount, totalHoleArea, meanArea, meanCircularity, areas));
  }

  /** What the result dictionary promises: every listed area is in the band, the list has one entry per counted
      hole, the total is the sum of the list and the mean is the total over the count (0 without holes). */
  lemma SummaryFacts(contours: seq<Contour>, minArea: real, maxArea: Bound)
    ensures var s := Summary(InBandContours(contours, minArea, maxArea));
      && |s.areas| == s.holeCount
      && (forall i :: 0 <= i < |s.areas| ==> InBand(s.areas[i], minArea, maxArea))
      && s.totalArea == Sum(s.areas)
      && (s.holeCount == 0 ==> s.meanArea == 0.0 && s.meanCircularity == 0.0)
      && (s.holeCount > 0 ==> s.meanArea == s.totalArea / (s.holeCount as real)
                              && InBand(s.meanArea, minArea, maxArea))
  {
    var acc := InBandContours(contours, minArea, maxArea);
    if |acc| > 0 {
      MeanAreaInBand(contours, minArea, maxArea);
    }
  }

  /** Fewer circularities than holes exactly when some counted hole has a zero perimeter. */
  lemma CircularityCount(contours: seq<Contour>, minArea: real, maxArea: Bound)
    ensures var acc := InBandContours(contours, minArea, maxArea);
      |Circularities(acc)| <= |acc|
      && (|Circularities(acc)| == |acc| <==> forall i :: 0 <= i < |acc| ==> acc[i].perimeter > 0.0)
  {
    var acc := InBandContours(contours, minArea, maxArea);
    FilterKeepsAll(acc, HasPerimeter());
  }

  /** Every recorded circularity is non-negative when OpenCV's measurements are. */
  lemma CircularitiesNonNegative(accepted: seq<Contour>)
    requires forall i :: 0 <= i < |accepted| ==> Measured(accepted[i])
    ensures forall k :: 0 <= k < |Circularities(accepted)| ==> 0.0 <= Circularities(accepted)[k]
  {
    var measured := Filter(accepted, HasPerimeter());
    forall k | 0 <= k < |measured|
      ensures 0.0 <= Circularity(measured[k])
    {
      FilterMembership(accepted, HasPerimeter(), measured[k]);
      var c := measured[k];
      assert 0.0 <= 4.0 * Pi * c.area;
      assert 0.0 < c.perimeter * c.perimeter + CircularityEpsilon;
    }
  }

  /** Raising `min_area` over the same contours never increases 孔洞数量. */
  lemma HoleCountMonotone(contours: seq<Contour>, lowMin: real, highMin: real, maxArea: Bound)
    requires lowMin <= highMin
    ensures Summary(InBandContours(contours, highMin, maxArea)).holeCount
         <= Summary(InBandContours(contours, lowMin, maxArea)).holeCount
  {
    InBandMonotone(contours, lowMin, highMin, maxArea);
  }
}
