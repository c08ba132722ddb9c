/** `analyze_grains`: keep the contours whose area is in the band and report their count and mean area.
    Grayscale conversion, median blur, the fixed threshold, the 3x3 opening and `findContours` are OpenCV's; the
    model receives their outcome as a `ContourImage`. */
module GrainAnalysis {
  import opened Common
  import opened Stats
  import opened Detection

  /** The result dictionary: 粒子数量, 平均面积, 面积列表. */
  datatype GrainSummary = GrainSummary(grainCount: nat, meanArea: real, areas: seq<real>)

  /** `({}, None, None, None)` for a missing image, or the summary (the three images are OpenCV's). */
  datatype GrainOutcome = NoImage | GrainResult(summary: GrainSummary)

  /** The defaults of `analyze_grains`, which both callers in the repository rely on. */
  const DefaultThreshold: int := 120
  const DefaultMinArea: real := 5.0
  const DefaultMaxArea: Bound := AtMost(5000.0)

  /** `analyze_grains(image, threshold_val=120, min_area=5, max_area=5000)`. */
  method AnalyzeGrains(image: Option<ContourImage>, threshold: int := DefaultThreshold,
                       minArea: real := DefaultMinArea, maxArea: Bound := DefaultMaxArea)
    returns (r: GrainOutcome)
    ensures image.None? <==> r.NoImage?
    ensures image.Some? ==>
      var accepted := InBandContours(image.value.contoursAt(threshold), minArea, maxArea);
      && r.summary.areas == Areas(accepted)
      && r.summary.grainCount == |r.summary.areas|
      && r.summary.meanArea == (if |r.summary.areas| > 0 then Mean(r.summary.areas) else 0.0)
  {
    if image.None? {
      return NoImage;
    }
    var contours := image.value.contoursAt(threshold);
    var areas: seq<real> := [];
    var i := 0;
    while i < |contours|
      invariant 0 <= i <= |contours|
      invariant areas == Areas(InBandContours(contours[..i], minArea, maxArea))
    {
      var cnt := contours[i];
      var area := cnt.area;
      ghost var acc := InBandContours(contours[..i], minArea, maxArea);
      InBandStep(contours, i, minArea, maxArea);
      if minArea <= area && (maxArea.AtMost? ==> area <= maxArea.limit) {
        AreasSnoc(acc, cnt);
        areas := areas + [area];
      }
      i := i + 1;
    }
    assert contours[..|contours|] == contours;
    r := GrainResult(GrainSummary(|areas|, if |areas| > 0 then Mean(areas) else 0.0, areas));
  }

  /** The listed areas are exactly the in-band contour areas in contour order: each listed area is in the band,
      and a contour's area is listed iff the contour is in the band. */
  lemma AreasExactlyInBand(contours: seq<Contour>, minArea: real, maxArea: Bound)
    ensures var a := Areas(InBandContours(contours, minArea, maxArea));
      && (forall k :: 0 <= k < |a| ==> InBand(a[k], minArea, maxArea))
      && (forall c :: c in contours && InBand(c.area, minArea, maxArea) ==> c.area in a)
  {
    var acc := InBandContours(contours, minArea, maxArea);
    forall c | c in contours && InBand(c.area, minArea, maxArea)
      ensures c.area in Areas(acc)
    {
      InBandExactly(contours, minArea, maxArea, c);
      var k :| 0 <= k < |acc| && acc[k] == c;
      assert Areas(acc)[k] == c.area;
    }
  }

  /** The reported mean is 0 without grains and otherwise lies inside the band. */
  lemma MeanAreaBounds(contours: seq<Contour>, minArea: real, maxArea: Bound)
    ensures var a := Areas(InBandContours(contours, minArea, maxArea));
      |a| > 0 ==> InBand(Mean(a), minArea, maxArea)
  {
    if |InBandContours(contours, minArea, maxArea)| > 0 {
      MeanAreaInBand(contours, minArea, maxArea);
    }
  }

  /** With the default band [5, 5000], raising `min_area` never increases 粒子数量. */
  lemma GrainCountMonotone(contours: seq<Contour>, higherMin: real)
    requires DefaultMinArea <= higherMin
    ensures |Areas(InBandContours(contours, higherMin, DefaultMaxArea))|
         <= |Areas(InBandContours(contours, DefaultMinArea, DefaultMaxArea))|
  {
    InBandMonotone(contours, DefaultMinArea, higherMin, DefaultMaxArea);
  }
}
