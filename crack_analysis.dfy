/** `process_crack`: drop small connected components from the cleaned mask, accept the contours whose area is in the
    band and whose solidity is below 0.7, measure each accepted contour's width and length, and summarise the cracks.
    Grayscale conversion, CLAHE, bilateral filtering, the adaptive and global thresholds and their OR, the morphology,
    `ndimage.label`, `findContours`, the distance transform and `regionprops` are library code; the model receives
    their results through a `CrackImage`. */
module CrackAnalysis {
  import opened Common
  import opened Stats
  import opened Detection

  // ---------------------------------------------------------------------------------------------------------------
  // Component-size filter

  /** The result of `ndimage.label`: a label grid and the number of labelled components. */
  datatype Labelling = Labelling(labels: seq<seq<nat>>, numFeatures: nat)

  predicate SameShape<A, B>(a: seq<seq<A>>, b: seq<seq<B>>)
  {
    |a| == |b| && forall i :: 0 <= i < |a| ==> |a[i]| == |b[i]|
  }

  /** What `ndimage.label` guarantees and `mask[labeled]` relies on: one label per mask pixel, none above `numFeatures`. */
  predicate LabelsFit(mask: seq<seq<int>>, l: Labelling)
  {
    SameShape(l.labels, mask)
    && forall i, j :: 0 <= i < |l.labels| && 0 <= j < |l.labels[i]| ==> l.labels[i][j] <= l.numFeatures
  }

  /** A mask as OpenCV produces it: every pixel is 0 or 255. */
  predicate IsBinaryMask(mask: seq<seq<int>>)
  {
    forall i, j :: 0 <= i < |mask| && 0 <= j < |mask[i]| ==> mask[i][j] == 0 || mask[i][j] == 255
  }

  /** `ndimage.label` gives label 0 to exactly the background pixels. */
  predicate BackgroundLabelledZero(mask: seq<seq<int>>, l: Labelling)
    requires SameShape(l.labels, mask)
  {
    forall i, j :: 0 <= i < |mask| && 0 <= j < |mask[i]| ==> (l.labels[i][j] == 0 <==> mask[i][j] == 0)
  }

  /** The mask values summed over the pixels of one row that carry label `k`. */
  function RowLabelSum(labelRow: seq<nat>, maskRow: seq<int>, k: nat): int
    requires |labelRow| == |maskRow|
    decreases |labelRow|
  {
    if |labelRow| == 0 then 0
    else (if labelRow[0] == k then maskRow[0] else 0) + RowLabelSum(labelRow[1..], maskRow[1..], k)
  }

  /** `ndimage.sum(thresh, labeled, k)`: the mask values summed over the pixels labelled `k`. */
  function LabelSum(labels: seq<seq<nat>>, mask: seq<seq<int>>, k: nat): int
    requires SameShape(labels, mask)
    decreases |labels|
  {
    if |labels| == 0 then 0
    else RowLabelSum(labels[0], mask[0], k) + LabelSum(labels[1..], mask[1..], k)
  }

  function RowLabelCount(labelRow: seq<nat>, k: nat): nat
    decreases |labelRow|
  {
    if |labelRow| == 0 then 0 else (if labelRow[0] == k then 1 else 0) + RowLabelCount(labelRow[1..], k)
  }

  /** The number of pixels labelled `k`. */
  function LabelCount(labels: seq<seq<nat>>, k: nat): nat
    decreases |labels|
  {
    if |labels| == 0 then 0 else RowLabelCount(labels[0], k) + LabelCount(labels[1..], k)
  }

  /** `sizes = ndimage.sum(thresh, labeled, range(num_features + 1))`. */
  function ComponentSizes(mask: seq<seq<int>>, l: Labelling): (sizes: seq<int>)
    requires SameShape(l.labels, mask)
    ensures |sizes| == l.numFeatures + 1
  {
    seq(l.numFeatures + 1, k requires 0 <= k <= l.numFeatures => LabelSum(l.labels, mask, k))
  }

  /** `thresh = (sizes > min_area / 10)[labeled]`: the boolean mask of pixels whose component is large enough. */
  function KeepComponents(mask: seq<seq<int>>, l: Labelling, minArea: real): (kept: seq<seq<bool>>)
    requires LabelsFit(mask, l)
    ensures SameShape(kept, l.labels)
    ensures forall i, j :: 0 <= i < |kept| && 0 <= j < |kept[i]| ==>
      kept[i][j] == (LabelSum(l.labels, mask, l.labels[i][j]) as real > minArea / 10.0)
  {
    var sizes := ComponentSizes(mask, l);
    seq(|l.labels|, i requires 0 <= i < |l.labels| =>
      seq(|l.labels[i]|, j requires 0 <= j < |l.labels[i]| => sizes[l.labels[i][j]] as real > minArea / 10.0))
  }

  /** `thresh.astype(np.uint8) * 255`, the 二值图 the caller receives. */
  function BinaryImage(kept: seq<seq<bool>>): (img: seq<seq<int>>)
    ensures SameShape(img, kept)
    ensures IsBinaryMask(img)
  {
    seq(|kept|, i requires 0 <= i < |kept| =>
      seq(|kept[i]|, j requires 0 <= j < |kept[i]| => if kept[i][j] then 255 else 0))
  }

  lemma {:induction false} RowSumIs255Count(labelRow: seq<nat>, maskRow: seq<int>, k: nat)
    requires |labelRow| == |maskRow|
    requires forall j :: 0 <= j < |maskRow| ==> maskRow[j] == 0 || maskRow[j] == 255
    requires forall j :: 0 <= j < |maskRow| ==> (labelRow[j] == 0 <==> maskRow[j] == 0)
    ensures RowLabelSum(labelRow, maskRow, k) == if k == 0 then 0 else 255 * RowLabelCount(labelRow, k)
    decreases |labelRow|
  {
    if |labelRow| > 0 {
      RowSumIs255Count(labelRow[1..], maskRow[1..], k);
    }
  }

  /** Summing a 0/255 mask over a component gives 255 times its pixel count, and 0 for the background label. */
  lemma {:induction false} LabelSumIs255Count(mask: seq<seq<int>>, l: Labelling, k: nat)
    requires SameShape(l.labels, mask)
    requires IsBinaryMask(mask)
    requires BackgroundLabelledZero(mask, l)
    ensures LabelSum(l.labels, mask, k) == if k == 0 then 0 else 255 * LabelCount(l.labels, k)
    decreases |mask|
  {
    if |mask| > 0 {
      RowSumIs255Count(l.labels[0], mask[0], k);
      var rest := Labelling(l.labels[1..], l.numFeatures);
      assert BackgroundLabelledZero(mask[1..], rest) by {
        forall i, j | 0 <= i < |mask[1..]| && 0 <= j < |mask[1..][i]|
          ensures rest.labels[i][j] == 0 <==> mask[1..][i][j] == 0
        {
          assert mask[1..][i] == mask[i + 1];
        }
      }
      LabelSumIs255Count(mask[1..], rest, k);
    }
  }

  /** After the filter a pixel is foreground iff it belongs to a labelled component whose 0/255 sum, 255 times its
      pixel count, exceeds `min_area / 10`; with `min_area >= 0` the background label never survives. */
  lemma ComponentFilterMeaning(mask: seq<seq<int>>, l: Labelling, minArea: real, i: nat, j: nat)
    requires LabelsFit(mask, l)
    requires IsBinaryMask(mask)
    requires BackgroundLabelledZero(mask, l)
    requires 0.0 <= minArea
    requires i < |mask| && j < |mask[i]|
    ensures var kept := KeepComponents(mask, l, minArea);
      kept[i][j] <==> mask[i][j] == 255 && (255 * LabelCount(l.labels, l.labels[i][j])) as real > minArea / 10.0
  {
    LabelSumIs255Count(mask, l, l.labels[i][j]);
  }

  // ---------------------------------------------------------------------------------------------------------------
  // Shape gate

  const SolidityLimit: real := 0.7

  /** `float(area) / hull_area if hull_area > 0 else 0`. */
  function Solidity(c: Contour): (r: real)
    ensures c.hullArea > 0.0 ==> r * c.hullArea == c.area
    ensures c.hullArea <= 0.0 ==> r == 0.0
    ensures 0.0 <= c.area <= c.hullArea ==> 0.0 <= r <= 1.0
  {
    if c.hullArea > 0.0 then c.area / c.hullArea else 0.0
  }

  /** A contour is counted as a crack when its area is in the band and it is not compact. */
  predicate IsCrack(c: Contour, minArea: real, maxArea: Bound)
  {
    InBand(c.area, minArea, maxArea) && Solidity(c) < SolidityLimit
  }

  function CrackTest(minArea: real, maxArea: Bound): Contour -> bool
  {
    (c: Contour) => IsCrack(c, minArea, maxArea)
  }

  /** The accepted contours (`crack_contours`), in contour order. */
  function Cracks(cs: seq<Contour>, minArea: real, maxArea: Bound): seq<Contour>
  {
    Filter(cs, CrackTest(minArea, maxArea))
  }

  /** Every counted crack is in the band and has solidity below 0.7, and every such contour is counted. */
  lemma CrackGate(cs: seq<Contour>, minArea: real, maxArea: Bound, c: Contour)
    ensures c in Cracks(cs, minArea, maxArea)
        <==> c in cs && InBand(c.area, minArea, maxArea) && Solidity(c) < SolidityLimit
  {
    FilterMembership(cs, CrackTest(minArea, maxArea), c);
  }

  /** A contour whose hull has no area gets solidity 0 and so passes the shape gate whenever it is in the band. */
  lemma ZeroHullPasses(cs: seq<Contour>, minArea: real, maxArea: Bound, c: Contour)
    requires c in cs && c.hullArea <= 0.0 && InBand(c.area, minArea, maxArea)
    ensures c in Cracks(cs, minArea, maxArea)
  {
    CrackGate(cs, minArea, maxArea, c);
  }

  /** A compact contour (area at least 0.7 of a positive hull area) is never counted. */
  lemma CompactRejected(cs: seq<Contour>, minArea: real, maxArea: Bound, c: Contour)
    requires c.hullArea > 0.0 && c.area >= SolidityLimit * c.hullArea
    ensures c !in Cracks(cs, minArea, maxArea)
  {
    CrackGate(cs, minArea, maxArea, c);
    RatioAtLeast(c.area, c.hullArea, SolidityLimit);
  }

  /** `a / h >= t` when `a >= t * h` and `h` is positive. */
  lemma RatioAtLeast(a: real, h: real, t: real)
    requires h > 0.0 && a >= t * h
    ensures a / h >= t
  {
    assert (a / h - t) * h == a - t * h;
  }

  /** Raising `min_area` over the same contours never increases the crack count. */
  lemma CrackCountMonotone(cs: seq<Contour>, lowMin: real, highMin: real, maxArea: Bound)
    requires lowMin <= highMin
    ensures |Cracks(cs, highMin, maxArea)| <= |Cracks(cs, lowMin, maxArea)|
  {
    FilterWeakerKeepsMore(cs, CrackTest(highMin, maxArea), CrackTest(lowMin, maxArea));
  }

  // ---------------------------------------------------------------------------------------------------------------
  // Width and length measurements

  /** `dist_transform[crack_mask > 0] * 2`: twice each distance inside the contour's mask. */
  function WidthValues(c: Contour): (w: seq<real>)
    ensures |w| == |c.distValues|
    ensures forall k :: 0 <= k < |w| ==> w[k] == 2.0 * c.distValues[k]
  {
    seq(|c.distValues|, k requires 0 <= k < |c.distValues| => 2.0 * c.distValues[k])
  }

  /** One entry of `crack_width_distributions`. */
  datatype WidthStats = WidthStats(min: real, max: real, mean: real, distribution: seq<real>)

  function StatsOf(values: seq<real>): WidthStats
    requires |values| > 0
  {
    WidthStats(Min(values), Max(values), Mean(values), values)
  }

  /** The entry of `crack_widths` for one crack: its largest width, or 0 when its mask has no pixel. */
  function RepresentativeWidth(c: Contour): real
  {
    if |c.distValues| > 0 then Max(WidthValues(c)) else 0.0
  }

  /** `crack_widths`: one entry per accepted contour. */
  function Widths(accepted: seq<Contour>): (r: seq<real>)
    ensures |r| == |accepted|
    ensures forall k :: 0 <= k < |r| ==> r[k] == RepresentativeWidth(accepted[k])
  {
    seq(|accepted|, k requires 0 <= k < |accepted| => RepresentativeWidth(accepted[k]))
  }

  /** `crack_lengths`: the closed arc length of every accepted contour. */
  function Lengths(accepted: seq<Contour>): (r: seq<real>)
    ensures |r| == |accepted|
    ensures forall k :: 0 <= k < |r| ==> r[k] == accepted[k].perimeter
  {
    seq(|accepted|, k requires 0 <= k < |accepted| => accepted[k].perimeter)
  }

  function HasWidthValues(): Contour -> bool
  {
    (c: Contour) => |c.distValues| > 0
  }

  /** `crack_width_distributions`: an entry only for the accepted contours whose mask has pixels. */
  function Distributions(accepted: seq<Contour>): (r: seq<WidthStats>)
    ensures |r| <= |accepted|
  {
    var measured := Filter(accepted, HasWidthValues());
    FilterSound(accepted, HasWidthValues());
    seq(|measured|, k requires 0 <= k < |measured| => StatsOf(WidthValues(measured[k])))
  }

  lemma DistributionsSnoc(accepted: seq<Contour>, c: Contour)
    ensures Distributions(accepted + [c])
         == Distributions(accepted) + (if |c.distValues| > 0 then [StatsOf(WidthValues(c))] else [])
  {
    FilterSnoc(accepted, c, HasWidthValues());
  }

  /** Lines 101-131 for one accepted contour: its width values give a distribution entry and the largest width,
      or no entry and width 0 when the mask has no pixel. */
  method MeasureWidth(contour: Contour) returns (width: real, distribution: Option<WidthStats>)
    ensures width == RepresentativeWidth(contour)
    ensures distribution.Some? <==> |contour.distValues| > 0
    ensures distribution.Some? ==> distribution.value == StatsOf(WidthValues(contour))
    ensures distribution.Some? ==> width == distribution.value.max
  {
    var widthValues := WidthValues(contour);
    if |widthValues| > 0 {
      var minWidth := Min(widthValues);
      var maxWidth := Max(widthValues);
      var meanWidth := Mean(widthValues);
      distribution := Some(WidthStats(minWidth, maxWidth, meanWidth, widthValues));
      width := maxWidth;
    } else {
      distribution := None;
      width := 0.0;
    }
  }

  /** How each per-crack list grows when one more contour is accepted. */
  lemma AcceptedSnoc(accepted: seq<Contour>, c: Contour)
    ensures Areas(accepted + [c]) == Areas(accepted) + [c.area]
    ensures Sum(Areas(accepted + [c])) == Sum(Areas(accepted)) + c.area
    ensures Widths(accepted + [c]) == Widths(accepted) + [RepresentativeWidth(c)]
    ensures Lengths(accepted + [c]) == Lengths(accepted) + [c.perimeter]
    ensures Distributions(accepted + [c])
         == Distributions(accepted) + (if |c.distValues| > 0 then [StatsOf(WidthValues(c))] else [])
  {
    SumSnoc(Areas(accepted), c.area);
    assert Areas(accepted + [c]) == Areas(accepted) + [c.area];
    DistributionsSnoc(accepted, c);
  }

  /** Scanning one more contour: it joins the accepted list exactly when it is a crack. */
  lemma CracksStep(contours: seq<Contour>, i: nat, minArea: real, maxArea: Bound)
    requires i < |contours|
    ensures Cracks(contours[..i + 1], minArea, maxArea)
         == Cracks(contours[..i], minArea, maxArea)
            + (if IsCrack(contours[i], minArea, maxArea) then [contours[i]] else [])
  {
    assert contours[..i + 1] == contours[..i] + [contours[i]];
    FilterSnoc(contours[..i], contours[i], CrackTest(minArea, maxArea));
  }

  /** The running totals of `process_crack`'s loop agree with the contours accepted so far. */
  predicate CrackTally(crackCount: nat, totalCrackArea: real, crackContours: seq<Contour>,
                       crackWidths: seq<real>, crackLengths: seq<real>, crackWidthDistributions: seq<WidthStats>)
  {
    && crackCount == |crackContours|
    && totalCrackArea == Sum(Areas(crackContours))
    && crackWidths == Widths(crackContours)
    && crackLengths == Lengths(crackContours)
    && crackWidthDistributions == Distributions(crackContours)
  }

  /** The body of the accepted branch: count the crack, add its area, keep it, and record its width, its width
      distribution (when its mask has pixels) and its length. */
  method AddCrack(contour: Contour, crackCount: nat, totalCrackArea: real, crackContours: seq<Contour>,
                  crackWidths: seq<real>, crackLengths: seq<real>, crackWidthDistributions: seq<WidthStats>)
    returns (count': nat, total': real, contours': seq<Contour>,
             widths': seq<real>, lengths': seq<real>, distributions': seq<WidthStats>)
    requires CrackTally(crackCount, totalCrackArea, crackContours, crackWidths, crackLengths, crackWidthDistributions)
    ensures contours' == crackContours + [contour]
    ensures CrackTally(count', total', contours', widths', lengths', distributions')
  {
    AcceptedSnoc(crackContours, contour);
    count' := crackCount + 1;
    total' := totalCrackArea + contour.area;
    contours' := crackContours + [contour];
    var width, distribution := MeasureWidth(contour);
    widths' := crackWidths + [width];
    distributions' := crackWidthDistributions;
    if distribution.Some? {
      distributions' := distributions' + [distribution.value];
    }
    lengths' := crackLengths + [contour.perimeter];
  }

  /** `process_crack`'s loop over the contours (every accepted contour adds one width, one length, and a width
      distribution when its mask has pixels); the drawing onto 结果图 is left out. */
  method ScanContours(contours: seq<Contour>, minArea: real, maxArea: Bound)
    returns (crackCount: nat, totalCrackArea: real, crackContours: seq<Contour>,
             crackWidths: seq<real>, crackLengths: seq<real>, crackWidthDistributions: seq<WidthStats>)
    ensures crackContours == Cracks(contours, minArea, maxArea)
    ensures crackCount == |crackContours|
    ensures totalCrackArea == Sum(Areas(crackContours))
    ensures crackWidths == Widths(crackContours)
    ensures crackLengths == Lengths(crackContours)
    ensures crackWidthDistributions == Distributions(crackContours)
  {
    crackCount, totalCrackArea := 0, 0.0;
    crackContours, crackWidths, crackLengths, crackWidthDistributions := [], [], [], [];
    var i := 0;
    while i < |contours|
      invariant 0 <= i <= |contours|
      invariant crackContours == Cracks(contours[..i], minArea, maxArea)
      invariant CrackTally(crackCount, totalCrackArea, crackContours, crackWidths, crackLengths, crackWidthDistributions)
    {
      var contour := contours[i];
      CracksStep(contours, i, minArea, maxArea);
      var area := contour.area;
      if InBand(area, minArea, maxArea) {
        var solidity := Solidity(contour);
        if solidity < SolidityLimit {
          crackCount, totalCrackArea, crackContours, crackWidths, crackLengths, crackWidthDistributions :=
            AddCrack(contour, crackCount, totalCrackArea, crackContours, crackWidths, crackLengths,
                     crackWidthDistributions);
        } else {
          assert crackContours + [] == crackContours;
        }
      } else {
        assert crackContours + [] == crackContours;
      }
      i := i + 1;
    }
    assert contours[..|contours|] == contours;
  }

  /** Both per-crack lists have one entry per counted crack; the distribution list is no longer, and exactly as long
      when every accepted contour's mask has pixels. */
  lemma ListLengths(contours: seq<Contour>, minArea: real, maxArea: Bound)
    ensures var acc := Cracks(contours, minArea, maxArea);
      && |Widths(acc)| == |acc| && |Lengths(acc)| == |acc|
      && |Distributions(acc)| <= |acc|
      && (|Distributions(acc)| == |acc| <==> forall k :: 0 <= k < |acc| ==> |acc[k].distValues| > 0)
  {
    var acc := Cracks(contours, minArea, maxArea);
    FilterKeepsAll(acc, HasWidthValues());
  }

  /** Each distribution entry belongs to an accepted contour with pixels: its values are twice that contour's
      distances, non-negative when the distances are, and its minimum, mean and maximum are ordered. */
  lemma DistributionEntryFacts(accepted: seq<Contour>, k: nat)
    requires k < |Distributions(accepted)|
    requires forall m :: 0 <= m < |accepted| ==> Measured(accepted[m])
    ensures var d := Distributions(accepted)[k];
      && (exists c :: c in accepted && |c.distValues| > 0 && d.distribution == WidthValues(c))
      && (forall v :: 0 <= v < |d.distribution| ==> 0.0 <= d.distribution[v])
      && 0.0 <= d.min <= d.mean <= d.max
      && d.min in d.distribution && d.max in d.distribution
  {
    var measured := Filter(accepted, HasWidthValues());
    var c := measured[k];
    FilterMembership(accepted, HasWidthValues(), c);
    var d := Distributions(accepted)[k];
    assert d == StatsOf(WidthValues(c));
    MeanBetweenMinAndMax(WidthValues(c));
  }

  /** The representative width of a crack is never negative and is the largest width of its distribution. */
  lemma RepresentativeWidthFacts(c: Contour)
    requires Measured(c)
    ensures 0.0 <= RepresentativeWidth(c)
    ensures |c.distValues| > 0 ==> RepresentativeWidth(c) == StatsOf(WidthValues(c)).max
  {
    if |c.distValues| > 0 {
      assert WidthValues(c)[0] == 2.0 * c.distValues[0];
    }
  }

  // ---------------------------------------------------------------------------------------------------------------
  // Feature summary

  /** One region of `measure.regionprops`: its pixel area and its major-axis orientation in radians. */
  datatype Region = Region(area: nat, orientation: real)

  function RegionAreas(rs: seq<Region>): (r: seq<real>)
    ensures |r| == |rs|
  {
    seq(|rs|, i requires 0 <= i < |rs| => rs[i].area as real)
  }

  /** `max(props, key=lambda x: x.area)`: the first region of largest area. */
  function LargestRegion(rs: seq<Region>): (r: Region)
    requires |rs| > 0
    ensures r in rs
    ensures forall i :: 0 <= i < |rs| ==> rs[i].area <= r.area
  {
    var k := FirstArgMax(RegionAreas(rs));
    assert forall i :: 0 <= i < |rs| ==> RegionAreas(rs)[i] == rs[i].area as real;
    rs[k]
  }

  /** `np.pi / 4` as the double it evaluates to. */
  const QuarterPi: real := 0.7853981633974483
  const Horizontal: string := "横向裂缝"
  const Vertical: string := "纵向裂缝"

  function Direction(orientation: real): (d: string)
    ensures d == Horizontal || d == Vertical
    ensures d == Horizontal <==> -QuarterPi < orientation < QuarterPi
  {
    if Abs(orientation) < QuarterPi then Horizontal else Vertical
  }

  /** The 特征 dictionary: empty, or the ten headline fields. */
  datatype Features =
    | NoFeatures
    | Features(count: nat, totalArea: real, meanArea: real, direction: string, maxLength: real,
               largestMaxWidth: real, largestMinWidth: real, largestMeanWidth: real, meanWidth: real,
               lengthWidthRatio: real)

  /** The summary either completes, or `crack_width_distributions[largest_crack_idx]` raises `IndexError`. */
  datatype SummaryOutcome = Summarised(features: Features) | DistributionIndexError

  /** The feature summary after the loop. The index of the largest crack ranges over all accepted contours,
      while the distribution list skips contours without width values; the model keeps that indexing as written. */
  function Summarize(crackCount: nat, totalCrackArea: real, crackContours: seq<Contour>, crackWidths: seq<real>,
                     crackLengths: seq<real>, distributions: seq<WidthStats>, regions: seq<Region>): (s: SummaryOutcome)
    requires crackCount == |crackContours|
    ensures crackCount == 0 ==> s == Summarised(NoFeatures)
    ensures |regions| == 0 || |distributions| == 0 ==> s == Summarised(NoFeatures)
    ensures s == Summarised(NoFeatures) <==> crackCount == 0 || |regions| == 0 || |distributions| == 0
    ensures s.Summarised? && s.features.Features? <==>
      crackCount > 0 && |regions| > 0 && |distributions| > 0 && FirstArgMax(Areas(crackContours)) < |distributions|
    ensures s.DistributionIndexError? <==>
      crackCount > 0 && |regions| > 0 && |distributions| > 0 && FirstArgMax(Areas(crackContours)) >= |distributions|
  {
    if crackCount == 0 || |regions| == 0 || |distributions| == 0 then Summarised(NoFeatures)
    else
      var largestCrackIdx := FirstArgMax(Areas(crackContours));
      if largestCrackIdx >= |distributions| then DistributionIndexError
      else
        var largestCrackWidths := distributions[largestCrackIdx];
        var orientation := LargestRegion(regions).orientation;
        var maxLength := if |crackLengths| > 0 then Max(crackLengths) else 0.0;
        Summarised(Features(
          crackCount, totalCrackArea, totalCrackArea / (crackCount as real), Direction(orientation), maxLength,
          largestCrackWidths.max, largestCrackWidths.min, largestCrackWidths.mean,
          if |crackWidths| > 0 then Mean(crackWidths) else 0.0,
          if largestCrackWidths.max > 0.0 then maxLength / largestCrackWidths.max else 0.0))
  }

  /** The measurements `process_crack` receives from the libraries, as functions of their inputs: the cleaned
      0/255 mask for a threshold (lines 20-45), `ndimage.label`, `findContours` on the filtered mask, and
      `regionprops` on the label grid. */
  datatype CrackImage = CrackImage(
    binarise: int -> seq<seq<int>>,
    labelComponents: seq<seq<int>> -> Labelling,
    findContours: seq<seq<bool>> -> seq<Contour>,
    regionprops: seq<seq<nat>> -> seq<Region>)

  /** The returned dictionary (原图 and 结果图 are OpenCV images and are left out). */
  datatype CrackReport = CrackReport(binary: seq<seq<int>>, crackContours: seq<Contour>, features: Features,
                                     crackWidths: seq<real>, distributions: seq<WidthStats>)

  /** `{}` for a missing image, the report, or the `IndexError` the summary can raise. */
  datatype CrackOutcome = NoImage | Report(report: CrackReport) | IndexFault

  /** The summary `process_crack` computes for an image, with the accepted list given by `Cracks`. */
  function SummaryFor(accepted: seq<Contour>, regions: seq<Region>): SummaryOutcome
  {
    Summarize(|accepted|, Sum(Areas(accepted)), accepted, Widths(accepted), Lengths(accepted),
              Distributions(accepted), regions)
  }

  /** `process_crack(image, min_area=1000, max_area=np.inf, threshold_val=100)`. */
  method ProcessCrack(image: Option<CrackImage>, minArea: real := 1000.0, maxArea: Bound := Unbounded,
                      threshold: int := 100)
    returns (r: CrackOutcome)
    requires image.Some? ==>
      LabelsFit(image.value.binarise(threshold), image.value.labelComponents(image.value.binarise(threshold)))
    ensures image.None? <==> r.NoImage?
    ensures image.Some? ==>
      var mask := image.value.binarise(threshold);
      var labelled := image.value.labelComponents(mask);
      var kept := KeepComponents(mask, labelled, minArea);
      var accepted := Cracks(image.value.findContours(kept), minArea, maxArea);
      var s := SummaryFor(accepted, image.value.regionprops(labelled.labels));
      && (r.IndexFault? <==> s.DistributionIndexError?)
      && (r.Report? ==> r.report == CrackReport(BinaryImage(kept), accepted, s.features,
                                                Widths(accepted), Distributions(accepted)))
  {
    if image.None? {
      return NoImage;
    }
    var img := image.value;
    var thresh := img.binarise(threshold);
    var labelled := img.labelComponents(thresh);
    var kept := KeepComponents(thresh, labelled, minArea);
    var contours := img.findContours(kept);
    var crackCount, totalCrackArea, crackContours, crackWidths, crackLengths, distributions :=
      ScanContours(contours, minArea, maxArea);
    var summary := Summarize(crackCount, totalCrackArea, crackContours, crackWidths, crackLengths, distributions,
                             img.regionprops(labelled.labels));
    if summary.DistributionIndexError? {
      return IndexFault;
    }
    r := Report(CrackReport(BinaryImage(kept), crackContours, summary.features, crackWidths, distributions));
  }

  /** What a completed summary reports: the count, the mean area as total over count (inside the band), the
      direction class of the largest region, the longest length, and the ratio rule with its zero default. */
  lemma FeaturesFacts(contours: seq<Contour>, minArea: real, maxArea: Bound, regions: seq<Region>)
    requires SummaryFor(Cracks(contours, minArea, maxArea), regions).Summarised?
    requires SummaryFor(Cracks(contours, minArea, maxArea), regions).features.Features?
    ensures var acc := Cracks(contours, minArea, maxArea);
      var f := SummaryFor(acc, regions).features;
      && f.count == |acc| > 0
      && f.totalArea == Sum(Areas(acc))
      && f.meanArea == f.totalArea / (f.count as real)
      && InBand(f.meanArea, minArea, maxArea)
      && (f.direction == Horizontal <==> Abs(LargestRegion(regions).orientation) < QuarterPi)
      && (f.direction == Vertical <==> QuarterPi <= Abs(LargestRegion(regions).orientation))
      && |Distributions(acc)| > 0 && |regions| > 0
      && f.maxLength == Max(Lengths(acc))
      && f.meanWidth == Mean(Widths(acc))
      && (f.largestMaxWidth > 0.0 ==> f.lengthWidthRatio == f.maxLength / f.largestMaxWidth)
      && (f.largestMaxWidth <= 0.0 ==> f.lengthWidthRatio == 0.0)
  {
    var acc := Cracks(contours, minArea, maxArea);
    FilterSound(contours, CrackTest(minArea, maxArea));
    assert forall k :: 0 <= k < |acc| ==> InBand(Areas(acc)[k], minArea, maxArea);
    MeanAtLeast(Areas(acc), minArea);
    if maxArea.AtMost? {
      MeanAtMost(Areas(acc), maxArea.limit);
    }
    assert Horizontal != Vertical;
  }

  /** When every accepted contour has width values the summary never faults, and the widths it reports are those of
      the first accepted contour of largest area. */
  lemma SummaryWellIndexed(accepted: seq<Contour>, regions: seq<Region>)
    requires |accepted| > 0 && |regions| > 0
    requires forall k :: 0 <= k < |accepted| ==> |accepted[k].distValues| > 0
    ensures var s := SummaryFor(accepted, regions);
      var largest := accepted[FirstArgMax(Areas(accepted))];
      && s.Summarised? && s.features.Features?
      && s.features.largestMaxWidth == Max(WidthValues(largest))
      && s.features.largestMinWidth == Min(WidthValues(largest))
      && s.features.largestMeanWidth == Mean(WidthValues(largest))
  {
    FilterKeepsAll(accepted, HasWidthValues());
    FilterAll(accepted, HasWidthValues());
  }

  /** Which cracks have a width distribution entry when the first of three has no width values. */
  lemma DistributionsSkipFirst(a: Contour, b: Contour, c: Contour)
    requires |a.distValues| == 0 && |b.distValues| > 0 && |c.distValues| > 0
    ensures Distributions([a, b]) == [StatsOf(WidthValues(b))]
    ensures Distributions([a, b, c]) == [StatsOf(WidthValues(b)), StatsOf(WidthValues(c))]
  {
    DistributionsSnoc([], a);
    DistributionsSnoc([a], b);
    DistributionsSnoc([a, b], c);
    assert [] + [a] == [a];
    assert [a] + [b] == [a, b];
    assert [a, b] + [c] == [a, b, c];
  }

  /** The first maximum of the example areas is at index 1. */
  lemma ExampleArgMax()
    ensures FirstArgMax([1500.0, 3000.0]) == 1
    ensures FirstArgMax([1500.0, 3000.0, 2000.0]) == 1
  {
    assert [1500.0, 3000.0, 2000.0][..2] == [1500.0, 3000.0];
    assert [1500.0, 3000.0][..1] == [1500.0];
    assert FirstArgMax([1500.0]) == 0;
  }

  /** The index fault is reachable: a first crack without width values and a larger second crack. */
  lemma IndexFaultExample()
    ensures var small := Contour(1500.0, 10000.0, 400.0, []);
      var large := Contour(3000.0, 10000.0, 800.0, [1.0]);
      var contours := [small, large];
      && Cracks(contours, 1000.0, Unbounded) == contours
      && SummaryFor(contours, [Region(3000, 0.0)]).DistributionIndexError?
  {
    var small := Contour(1500.0, 10000.0, 400.0, []);
    var large := Contour(3000.0, 10000.0, 800.0, [1.0]);
    var contours := [small, large];
    FilterAll(contours, CrackTest(1000.0, Unbounded));
    DistributionsSkipFirst(small, large, large);
    assert Areas(contours) == [1500.0, 3000.0];
    ExampleArgMax();
  }

  /** Without a fault the reported widths can still belong to another crack: the largest crack is the second one,
      but the second distribution entry is the third crack's. */
  lemma MisattributedWidthsExample()
    ensures var a := Contour(1500.0, 10000.0, 400.0, []);
      var b := Contour(3000.0, 10000.0, 800.0, [1.0]);
      var c := Contour(2000.0, 10000.0, 600.0, [4.0]);
      var s := SummaryFor([a, b, c], [Region(3000, 0.0)]);
      && Cracks([a, b, c], 1000.0, Unbounded) == [a, b, c]
      && FirstArgMax(Areas([a, b, c])) == 1
      && s.Summarised? && s.features.largestMaxWidth == 8.0 && RepresentativeWidth(b) == 2.0
  {
    var a := Contour(1500.0, 10000.0, 400.0, []);
    var b := Contour(3000.0, 10000.0, 800.0, [1.0]);
    var c := Contour(2000.0, 10000.0, 600.0, [4.0]);
    var cs := [a, b, c];
    FilterAll(cs, CrackTest(1000.0, Unbounded));
    DistributionsSkipFirst(a, b, c);
    assert Areas(cs) == [1500.0, 3000.0, 2000.0];
    ExampleArgMax();
    assert WidthValues(c) == [8.0];
    assert WidthValues(b) == [2.0];
  }
}
