/** What the three detectors share: the measurements OpenCV reports for one contour, and the closed area band
    `min_area <= area <= max_area` every detector filters contours with. */
module Detection {
  import opened Common
  import opened Stats

  /** One contour as the detectors see it. `area` is `cv2.contourArea` of the contour, `hullArea` that of its
      convex hull, `perimeter` the closed `cv2.arcLength`, and `distValues` the distance-transform values inside
      the contour's own filled mask (one per pixel of the mask, in raster order). */
  datatype Contour = Contour(area: real, hullArea: real, perimeter: real, distValues: seq<real>)

  /** What OpenCV guarantees of its measurements: areas, lengths and distances are never negative. */
  predicate Measured(c: Contour)
  {
    0.0 <= c.area && 0.0 <= c.hullArea && 0.0 <= c.perimeter
    && forall k :: 0 <= k < |c.distValues| ==> 0.0 <= c.distValues[k]
  }

  /** A readable image as the hole and grain detectors see it through the OpenCV steps (grayscale, blur, fixed
      threshold, morphology, `findContours`): the contours found once it is binarised at a given threshold. */
  datatype ContourImage = ContourImage(contoursAt: int -> seq<Contour>)

  /** The upper end of the band: a number, or `np.inf` / `float('inf')`. */
  datatype Bound = Unbounded | AtMost(limit: real)

  /** The chained comparison `min_area <= area <= max_area` (with `area <= inf` always true). */
  predicate InBand(area: real, minArea: real, maxArea: Bound)
  {
    minArea <= area && (maxArea.AtMost? ==> area <= maxArea.limit)
  }

  /** The band test as a value, for filtering. */
  function InBandTest(minArea: real, maxArea: Bound): Contour -> bool
  {
    (c: Contour) => InBand(c.area, minArea, maxArea)
  }

  /** The contours whose area lies in the band, in contour order. */
  function InBandContours(cs: seq<Contour>, minArea: real, maxArea: Bound): (r: seq<Contour>)
    ensures forall i :: 0 <= i < |r| ==> InBand(r[i].area, minArea, maxArea)
  {
    FilterSound(cs, InBandTest(minArea, maxArea));
    Filter(cs, InBandTest(minArea, maxArea))
  }

  /** The area of every contour, in order. */
  function Areas(cs: seq<Contour>): (r: seq<real>)
    ensures |r| == |cs|
    ensures forall i :: 0 <= i < |cs| ==> r[i] == cs[i].area
  {
    seq(|cs|, i requires 0 <= i < |cs| => cs[i].area)
  }

  lemma AreasSnoc(cs: seq<Contour>, c: Contour)
    ensures Areas(cs + [c]) == Areas(cs) + [c.area]
  {
  }

  /** Scanning one more contour: it joins the in-band list exactly when its area is in the band. */
  lemma InBandSnoc(cs: seq<Contour>, c: Contour, minArea: real, maxArea: Bound)
    ensures InBandContours(cs + [c], minArea, maxArea)
         == InBandContours(cs, minArea, maxArea) + (if InBand(c.area, minArea, maxArea) then [c] else [])
  {
    FilterSnoc(cs, c, InBandTest(minArea, maxArea));
  }

  /** The same for the prefixes of one list of contours. */
  lemma InBandStep(cs: seq<Contour>, i: nat, minArea: real, maxArea: Bound)
    requires i < |cs|
    ensures InBandContours(cs[..i + 1], minArea, maxArea)
         == InBandContours(cs[..i], minArea, maxArea) + (if InBand(cs[i].area, minArea, maxArea) then [cs[i]] else [])
  {
    assert cs[..i + 1] == cs[..i] + [cs[i]];
    InBandSnoc(cs[..i], cs[i], minArea, maxArea);
  }

  /** Raising `min_area` (with the same `max_area`) never lets more contours through. */
  lemma InBandMonotone(cs: seq<Contour>, lowMin: real, highMin: real, maxArea: Bound)
    requires lowMin <= highMin
    ensures |InBandContours(cs, highMin, maxArea)| <= |InBandContours(cs, lowMin, maxArea)|
  {
    FilterWeakerKeepsMore(cs, InBandTest(highMin, maxArea), InBandTest(lowMin, maxArea));
  }

  /** Every accepted area is in the band, and a contour found in the image is accepted iff its area is in the band. */
  lemma InBandExactly(cs: seq<Contour>, minArea: real, maxArea: Bound, c: Contour)
    ensures c in InBandContours(cs, minArea, maxArea) <==> c in cs && InBand(c.area, minArea, maxArea)
  {
    FilterMembership(cs, InBandTest(minArea, maxArea), c);
  }

  /** The mean of in-band areas lies in the band itself. */
  lemma MeanAreaInBand(cs: seq<Contour>, minArea: real, maxArea: Bound)
    requires |InBandContours(cs, minArea, maxArea)| > 0
    ensures var a := Areas(InBandContours(cs, minArea, maxArea));
      InBand(Mean(a), minArea, maxArea)
  {
    var a := Areas(InBandContours(cs, minArea, maxArea));
    MeanAtLeast(a, minArea);
    if maxArea.AtMost? {
      MeanAtMost(a, maxArea.limit);
    }
  }
}
