/** The bookkeeping of `plot_distribution` in the desktop application: which chart is drawn for a list of values,
    the positive-value filter, the histogram's bin count, and the small/medium/large grouping of the pie chart
    with its empty groups dropped. Drawing, axis limits and the percentile-based ranges are not modelled. */
module Charts {
  import opened Common
  import opened Stats

  function IsPositive(): real -> bool
  {
    (d: real) => d > 0.0
  }

  /** `[d for d in data if d > 0]`. */
  function Positive(data: seq<real>): (r: seq<real>)
    ensures |r| <= |data|
    ensures forall k :: 0 <= k < |r| ==> r[k] > 0.0
  {
    FilterSound(data, IsPositive());
    Filter(data, IsPositive())
  }

  /** The distinct values, `set(filtered_data)`. */
  function Distinct(s: seq<real>): set<real>
  {
    set x | x in s
  }

  /** A non-empty list has at least one and at most as many distinct values as elements. */
  lemma {:induction false} DistinctBounds(s: seq<real>)
    ensures |Distinct(s)| <= |s|
    ensures |s| > 0 ==> 1 <= |Distinct(s)|
    decreases |s|
  {
    if |s| > 0 {
      var s' := s[..|s| - 1];
      DistinctBounds(s');
      assert Distinct(s) == Distinct(s') + {s[|s| - 1]} by {
        assert s == s' + [s[|s| - 1]];
      }
      assert s[0] in Distinct(s);
    }
  }

  /** The histogram's bin count: one bin per value below 10 values, then at most 10 and 20 bins, and never more
      bins than distinct values. */
  function BinCount(filtered: seq<real>): (bins: nat)
    ensures |filtered| > 0 ==> 1 <= bins <= |filtered| && bins <= 20
  {
    DistinctBounds(filtered);
    var n := |filtered|;
    var d := |Distinct(filtered)|;
    if n < 10 then n
    else if n < 50 then (if 10 < d then 10 else d)
    else (if 20 < d then 20 else d)
  }

  /** The three size groups of the pie chart, relative to the mean `m`: below `m/2`, from `m/2` up to (not
      including) `2m`, and from `2m` up. */
  function SmallTest(m: real): real -> bool
  {
    (d: real) => d < m / 2.0
  }

  function MediumTest(m: real): real -> bool
  {
    (d: real) => m / 2.0 <= d < m * 2.0
  }

  function LargeTest(m: real): real -> bool
  {
    (d: real) => d >= m * 2.0
  }

  /** `sizes = [small, medium, large]` for the positive values. */
  function GroupSizes(filtered: seq<real>): (sizes: seq<nat>)
    requires |filtered| > 0
    ensures |sizes| == 3
  {
    var m := Mean(filtered);
    [|Filter(filtered, SmallTest(m))|, |Filter(filtered, MediumTest(m))|, |Filter(filtered, LargeTest(m))|]
  }

  /** With a non-negative mean the three groups do not overlap and cover everything. */
  lemma {:induction false} GroupsPartition(s: seq<real>, m: real)
    requires 0.0 <= m
    ensures |Filter(s, SmallTest(m))| + |Filter(s, MediumTest(m))| + |Filter(s, LargeTest(m))| == |s|
    decreases |s|
  {
    if |s| > 0 {
      GroupsPartition(s[..|s| - 1], m);
    }
  }

  /** The group sizes add up to the number of positive values. */
  lemma GroupSizesSum(filtered: seq<real>)
    requires |filtered| > 0
    requires forall k :: 0 <= k < |filtered| ==> filtered[k] > 0.0
    ensures var g := GroupSizes(filtered); g[0] + g[1] + g[2] == |filtered|
  {
    MeanAtLeast(filtered, 0.0);
    GroupsPartition(filtered, Mean(filtered));
  }

  /** Neither the small nor the large group can hold every value: the mean lies between the extremes. */
  lemma GroupsNotAllSmallOrLarge(filtered: seq<real>)
    requires |filtered| > 0
    requires forall k :: 0 <= k < |filtered| ==> filtered[k] > 0.0
    ensures var g := GroupSizes(filtered); g[0] < |filtered| && g[2] < |filtered|
  {
    var m := Mean(filtered);
    MeanBetweenMinAndMax(filtered);
    assert 0.0 < m;
    var top := FirstArgMax(filtered);
    assert !SmallTest(m)(filtered[top]);
    FilterMembership(filtered, SmallTest(m), filtered[top]);
    FilterKeepsAll(filtered, SmallTest(m));
    var i :| 0 <= i < |filtered| && filtered[i] == Min(filtered);
    assert !LargeTest(m)(filtered[i]);
    FilterKeepsAll(filtered, LargeTest(m));
  }

  /** The entries of `xs` whose group size is positive, in order: what the `valid_*` lists receive. */
  function Kept<T>(sizes: seq<nat>, xs: seq<T>): (r: seq<T>)
    requires |xs| == |sizes|
    decreases |sizes|
  {
    if |sizes| == 0 then []
    else Kept(sizes[..|sizes| - 1], xs[..|xs| - 1]) + (if sizes[|sizes| - 1] > 0 then [xs[|xs| - 1]] else [])
  }

  lemma {:induction false} KeptLength<T, U>(sizes: seq<nat>, xs: seq<T>, ys: seq<U>)
    requires |xs| == |sizes| && |ys| == |sizes|
    ensures |Kept(sizes, xs)| == |Kept(sizes, ys)|
    decreases |sizes|
  {
    if |sizes| > 0 {
      KeptLength(sizes[..|sizes| - 1], xs[..|xs| - 1], ys[..|ys| - 1]);
    }
  }

  function NatSum(s: seq<nat>): nat
    decreases |s|
  {
    if |s| == 0 then 0 else NatSum(s[..|s| - 1]) + s[|s| - 1]
  }

  /** Dropping the empty groups keeps every counted value and leaves only positive sizes. */
  lemma {:induction false} KeptSizes(sizes: seq<nat>)
    ensures NatSum(Kept(sizes, sizes)) == NatSum(sizes)
    ensures forall k :: 0 <= k < |Kept(sizes, sizes)| ==> Kept(sizes, sizes)[k] > 0
    decreases |sizes|
  {
    if |sizes| > 0 {
      var s' := sizes[..|sizes| - 1];
      var last := sizes[|sizes| - 1];
      KeptSizes(s');
      var kept := Kept(s', s') + (if last > 0 then [last] else []);
      assert Kept(sizes, sizes) == kept;
      assert NatSum(sizes) == NatSum(s') + last;
      if last > 0 {
        assert kept[..|kept| - 1] == Kept(s', s') && kept[|kept| - 1] == last;
        assert NatSum(kept) == NatSum(Kept(s', s')) + last;
      } else {
        assert kept == Kept(s', s');
      }
    }
  }

  /** For the three groups: the labels that remain are those of the non-empty groups, in the order small, medium,
      large. */
  lemma KeptThree<T>(a: nat, b: nat, c: nat, xs: seq<T>)
    requires |xs| == 3
    ensures Kept([a, b, c], xs)
         == (if a > 0 then [xs[0]] else []) + (if b > 0 then [xs[1]] else []) + (if c > 0 then [xs[2]] else [])
  {
    assert [a, b, c][..2] == [a, b] && [a, b][..1] == [a] && [a][..0] == [];
    assert xs[..2][..1] == xs[..1] && xs[..1][..0] == [];
    assert Kept([a], xs[..1]) == (if a > 0 then [xs[0]] else []);
    assert Kept([a, b], xs[..2]) == Kept([a], xs[..1]) + (if b > 0 then [xs[1]] else []);
    assert Kept([a, b, c], xs) == Kept([a, b], xs[..2]) + (if c > 0 then [xs[2]] else []);
  }

  /** The `for i, size in enumerate(sizes)` loop that fills `valid_sizes`, `valid_labels` and `valid_colors`. */
  method KeepNonEmpty(sizes: seq<nat>, labels: seq<string>, colors: seq<string>)
    returns (validSizes: seq<nat>, validLabels: seq<string>, validColors: seq<string>)
    requires |labels| == |sizes| && |colors| == |sizes|
    ensures validSizes == Kept(sizes, sizes)
    ensures validLabels == Kept(sizes, labels)
    ensures validColors == Kept(sizes, colors)
  {
    validSizes, validLabels, validColors := [], [], [];
    var i := 0;
    while i < |sizes|
      invariant 0 <= i <= |sizes|
      invariant validSizes == Kept(sizes[..i], sizes[..i])
      invariant validLabels == Kept(sizes[..i], labels[..i])
      invariant validColors == Kept(sizes[..i], colors[..i])
    {
      var size := sizes[i];
      assert sizes[..i + 1][..i] == sizes[..i];
      assert labels[..i + 1][..i] == labels[..i];
      assert colors[..i + 1][..i] == colors[..i];
      if size > 0 {
        validSizes := validSizes + [size];
        validLabels := validLabels + [labels[i]];
        validColors := validColors + [colors[i]];
      }
      i := i + 1;
    }
    assert sizes[..|sizes|] == sizes && labels[..|labels|] == labels && colors[..|colors|] == colors;
  }

  /** Nothing survives the filter exactly when no value is positive. */
  lemma PositiveEmpty(data: seq<real>)
    ensures |Positive(data)| == 0 <==> forall k :: 0 <= k < |data| ==> data[k] <= 0.0
  {
    if |Positive(data)| > 0 {
      FilterMembership(data, IsPositive(), Positive(data)[0]);
    }
    forall k | 0 <= k < |data| && data[k] > 0.0
      ensures |Positive(data)| > 0
    {
      FilterMembership(data, IsPositive(), data[k]);
    }
  }

  // ---------------------------------------------------------------------------------------------------------------
  // Which chart is drawn

  datatype AnalysisKind = HoleKind | CrackKind | GrainKind

  const GroupColors: seq<string> := ["#ff9999", "#66b3ff", "#99ff99"]

  /** The group labels: 小/中/大 for areas, 窄/中/宽 for crack widths. */
  function GroupLabels(kind: AnalysisKind): seq<string>
  {
    if kind == CrackKind then ["窄", "中", "宽"] else ["小", "中", "大"]
  }

  function PieTitle(kind: AnalysisKind): string
  {
    match kind
    case HoleKind => "孔洞大小分布"
    case CrackKind => "裂缝宽度分布"
    case GrainKind => "粒子大小分布"
  }

  /** What `plot_distribution` puts on the chart axes. */
  datatype Chart =
    | NoData                                  // 无有效数据
    | InvalidData                             // 数据无效
    | Histogram(values: seq<real>, bins: nat)
    | LineChart(values: seq<real>)            // plotted after `sorted`
    | Pie(sizes: seq<nat>, labels: seq<string>, colors: seq<string>, title: string)
    | PieUnavailable                          // 数据不足以生成饼图
    | TitleOnly                               // the axes with the title and nothing else

  /** A pie is drawn for hole and grain areas when their total is positive, for crack widths when there is any. */
  predicate PieDrawn(kind: AnalysisKind, filtered: seq<real>)
  {
    if kind == CrackKind then |filtered| > 0 else Sum(filtered) > 0.0
  }

  function PieChart(kind: AnalysisKind, filtered: seq<real>): (c: Chart)
    requires |filtered| > 0
    ensures c.Pie? || c.PieUnavailable?
    ensures c.Pie? ==>
      && |c.sizes| == |c.labels| == |c.colors| > 0
      && (forall k :: 0 <= k < |c.sizes| ==> c.sizes[k] > 0)
      && NatSum(c.sizes) == NatSum(GroupSizes(filtered))
      && c.title == PieTitle(kind)
  {
    var sizes := GroupSizes(filtered);
    KeptSizes(sizes);
    KeptLength(sizes, sizes, GroupLabels(kind));
    KeptLength(sizes, sizes, GroupColors);
    var valid := Kept(sizes, sizes);
    if |valid| > 0 then Pie(valid, Kept(sizes, GroupLabels(kind)), Kept(sizes, GroupColors), PieTitle(kind))
    else PieUnavailable
  }

  /** `plot_distribution(data, ...)` with the window's current `plot_type` and `analysis_type`. */
  function PlanChart(data: seq<real>, plotType: string, kind: Option<AnalysisKind>): (c: Chart)
    ensures c.NoData? <==> |data| == 0
    ensures c.InvalidData? <==> |data| > 0 && forall k :: 0 <= k < |data| ==> data[k] <= 0.0
    ensures c.Histogram? <==> plotType == "histogram" && |Positive(data)| > 0
    ensures c.Histogram? ==> c.values == Positive(data) && 1 <= c.bins <= |c.values| && c.bins <= 20
    ensures c.LineChart? ==> plotType == "line" && c.values == Positive(data) && |c.values| > 0
    ensures (c.Pie? || c.PieUnavailable?) ==> plotType == "pie" && kind.Some? && PieDrawn(kind.value, Positive(data))
    ensures c.Pie? ==> c.title == PieTitle(kind.value) && |c.sizes| == |c.labels| == |c.colors| > 0
  {
    PositiveEmpty(data);
    var filtered := Positive(data);
    if |data| == 0 then NoData
    else if |filtered| == 0 then InvalidData
    else if plotType == "histogram" then Histogram(filtered, BinCount(filtered))
    else if plotType == "line" then LineChart(filtered)
    else if plotType == "pie" && kind.Some? && PieDrawn(kind.value, filtered) then PieChart(kind.value, filtered)
    else TitleOnly
  }

  // ---------------------------------------------------------------------------------------------------------------
  // Properties

  /** The filter keeps exactly the positive values, in order. */
  lemma PositiveExactly(data: seq<real>, x: real)
    ensures x in Positive(data) <==> x in data && x > 0.0
    ensures |Positive(data)| == |data| <==> forall k :: 0 <= k < |data| ==> data[k] > 0.0
  {
    FilterMembership(data, IsPositive(), x);
    FilterKeepsAll(data, IsPositive());
  }

  /** The bin rule exactly: `n` bins below 10 values, `min(10, d)` below 50, `min(20, d)` from 50 on, for `d`
      distinct values; and so between 1 and `min(n, 20)`. */
  lemma HistogramBins(data: seq<real>)
    requires |Positive(data)| > 0
    ensures var filtered := Positive(data);
      var n := |filtered|;
      var d := |Distinct(filtered)|;
      && PlanChart(data, "histogram", None) == Histogram(filtered, BinCount(filtered))
      && (n < 10 ==> BinCount(filtered) == n)
      && (10 <= n < 50 ==> BinCount(filtered) == if d < 10 then d else 10)
      && (50 <= n ==> BinCount(filtered) == if d < 20 then d else 20)
      && 1 <= BinCount(filtered) && BinCount(filtered) <= n && BinCount(filtered) <= 20
  {
  }

  /** A pie of positive values always has a non-empty group, so the 数据不足以生成饼图 branch is never taken, and
      the pie shows the non-empty groups with their labels in group order. */
  lemma PieAlwaysAvailable(data: seq<real>, kind: AnalysisKind)
    requires |Positive(data)| > 0
    ensures PlanChart(data, "pie", Some(kind)).Pie?
    ensures var g := GroupSizes(Positive(data));
      var pie := PlanChart(data, "pie", Some(kind));
      && pie.sizes == (if g[0] > 0 then [g[0]] else []) + (if g[1] > 0 then [g[1]] else [])
                      + (if g[2] > 0 then [g[2]] else [])
      && pie.labels == (if g[0] > 0 then [GroupLabels(kind)[0]] else []) + (if g[1] > 0 then [GroupLabels(kind)[1]] else [])
                       + (if g[2] > 0 then [GroupLabels(kind)[2]] else [])
      && pie.title == PieTitle(kind)
  {
    var filtered := Positive(data);
    var g := GroupSizes(filtered);
    GroupSizesSum(filtered);
    assert forall k :: 0 <= k < |filtered| ==> filtered[k] > 0.0;
    SumAtLeast(filtered, 0.0);
    if kind != CrackKind {
      SumPositive(filtered);
    }
    KeptThree(g[0], g[1], g[2], g);
    KeptThree(g[0], g[1], g[2], GroupLabels(kind));
    assert g == [g[0], g[1], g[2]];
  }

  /** A non-empty list of positive values has a positive sum. */
  lemma SumPositive(s: seq<real>)
    requires |s| > 0
    requires forall k :: 0 <= k < |s| ==> s[k] > 0.0
    ensures Sum(s) > 0.0
  {
    var m := Min(s);
    assert m > 0.0;
    SumAtLeast(s, m);
    assert 0.0 < m * (|s| as real);
  }
}
