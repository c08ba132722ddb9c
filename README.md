# CoreAnalysisApp in Dafny

This project models the analysis core of CoreAnalysisApp, a tool for measuring features in rock-core images. It
covers five parts:

- The three detectors:
  - `process_crack` (module `CrackAnalysis`);
  - `process_stone_holes` (module `HoleAnalysis`);
  - `analyze_grains` (module `GrainAnalysis`).
  - What they share lives in `Detection`: the contour record and the closed area band `min_area <= area <= max_area`.
- The parameter validation of the web service's crack route (`RequestParams`). This includes Python's `int()` on
  JSON values and the `inf` sentinel for `max_area`.
- The recursive `convert_to_serializable` that prepares results for `jsonify` (`Serialization`).
- The desktop window's tool state (`DesktopTools.ToolState`, a class whose methods update its fields): the zoom,
  pan and pen switches, the mouse handlers, the stored analysis result and the plot-type switch that redraws the
  stored series or shows a notice.
- The bookkeeping of `plot_distribution` (`Charts`): which chart is drawn, the positive filter, the histogram bin
  rule, and the pie grouping with its `valid_*` loop.

Image processing (OpenCV, SciPy, scikit-image) is not modelled. Its results are inputs:

- for holes and grains, a `ContourImage` gives the contours found at a threshold;
- for cracks, a `CrackImage` gives the cleaned 0/255 mask, the component labelling, `findContours` and
  `regionprops`.

Each contour carries the measurements OpenCV returns: its area, its hull area, its closed perimeter, and the
distance-transform values inside its own filled mask.

The loops of the source are `method`s with invariants. Each is proved equal to a specification function over the
prefix it has scanned (`Cracks`, `Widths`, `Distributions`, `InBandContours`, `Circularities`, `Kept`). The lemmas
then state what the source promises about those functions.

The crack route's checks are a sequence of early returns, not a loop. `ValidateCrackRequest` follows them step by
step and is proved to reach the decision of the function `CrackRequest`.

Two behaviours of `process_crack` are modelled as written. The summary indexes `crack_width_distributions` by the
argmax over all accepted cracks, but that list skips cracks whose mask has no pixel.

- When the largest crack's index is past the end of the list, the summary raises `IndexError`. The model returns the
  `IndexFault` outcome, and `IndexFaultExample` shows two contours that reach it.
- When the index is in range after such a skip, the reported widths are another crack's. `MisattributedWidthsExample`
  shows three contours where this happens.
- `SummaryWellIndexed` shows that neither happens when every accepted crack has width values.

Both behaviours need an accepted contour whose filled mask holds no pixel. The mask is drawn filled
(crack_analysis.py:102-103), so with OpenCV's rasterisation that is most likely never the case, and the fault is
latent. The model cannot rule it out, because the `Contour` record does not tie `distValues` to the area.

The component filter `sizes > min_area / 10` compares sums of a 0/255 mask. A component's size is therefore 255
times its pixel count, as `ComponentFilterMeaning` states. The model keeps this as written.

`convert_to_serializable` tests `np.int32` but not `np.int64`, and `np.int64` is not a subclass of Python `int`. A
NumPy `int64` therefore falls through to `str()`, and `Int64BecomesText` shows that its decimal text is what
`jsonify` receives.

## Model

| member | source | states |
|---|---|---|
| CrackAnalysis.KeepComponents | CoreAnalysisApp/crack_analysis.py:49-53 | the filtered mask has the label grid's shape, and a pixel survives iff the mask sum over its component exceeds `min_area / 10` |
| CrackAnalysis.ComponentFilterMeaning | CoreAnalysisApp/crack_analysis.py:49-53 | on a 0/255 mask whose background is label 0, a pixel survives iff it is foreground and 255 times its component's pixel count exceeds `min_area / 10` |
| CrackAnalysis.BinaryImage | CoreAnalysisApp/crack_analysis.py:182 | the returned 二值图 has the filtered mask's shape and holds only 0 and 255 |
| CrackAnalysis.CrackGate | CoreAnalysisApp/crack_analysis.py:79-89 | a contour is counted as a crack iff it was found, its area is in the band and its solidity is below 0.7 |
| CrackAnalysis.ZeroHullPasses | CoreAnalysisApp/crack_analysis.py:85 | a contour whose hull has no area gets solidity 0 and is counted whenever its area is in the band |
| CrackAnalysis.CompactRejected | CoreAnalysisApp/crack_analysis.py:85-89 | a contour whose area is at least 0.7 of a positive hull area is never counted |
| CrackAnalysis.CrackCountMonotone | CoreAnalysisApp/crack_analysis.py:79 | raising `min_area` over the same contours never increases the crack count |
| CrackAnalysis.ComponentSizes | CoreAnalysisApp/crack_analysis.py:50 | one size per label from 0 to `num_features`; its meaning is in `ComponentFilterMeaning` |
| CrackAnalysis.Solidity | CoreAnalysisApp/crack_analysis.py:85 | area over hull area when the hull area is positive, else 0, and between 0 and 1 when the area does not exceed the hull area |
| CrackAnalysis.Cracks | CoreAnalysisApp/crack_analysis.py:75-95 | the accepted contours in order; definition; its properties are in `CrackGate` and `CrackCountMonotone` |
| CrackAnalysis.AddCrack | CoreAnalysisApp/crack_analysis.py:89-136 | the accepted branch appends the contour and keeps count, total, widths, lengths and distributions equal to those of the accepted list |
| CrackAnalysis.Distributions | CoreAnalysisApp/crack_analysis.py:113-125 | no more entries than accepted cracks; its properties are in `DistributionEntryFacts` and `ListLengths` |
| CrackAnalysis.Direction | CoreAnalysisApp/crack_analysis.py:162-163 | 横向裂缝 iff the orientation lies strictly between -π/4 and π/4, else 纵向裂缝 |
| CrackAnalysis.WidthValues | CoreAnalysisApp/crack_analysis.py:111 | a crack's width values are twice the distances inside its mask, one per pixel |
| CrackAnalysis.Widths | CoreAnalysisApp/crack_analysis.py:127-131 | `crack_widths` has one entry per accepted crack, its largest width or 0 |
| CrackAnalysis.Lengths | CoreAnalysisApp/crack_analysis.py:134-136 | `crack_lengths` has one entry per accepted crack, its closed perimeter |
| CrackAnalysis.MeasureWidth | CoreAnalysisApp/crack_analysis.py:101-131 | a crack yields a distribution entry iff its mask has pixels, the entry holds its min, max, mean and width values, and the representative width is that entry's max (0 without one) |
| CrackAnalysis.ScanContours | CoreAnalysisApp/crack_analysis.py:75-143 | after the loop, the accepted list is exactly the in-band, non-compact contours in order, the count is its length, the total is the sum of their areas, and the width, length and distribution lists are those of the accepted cracks |
| CrackAnalysis.ListLengths | CoreAnalysisApp/crack_analysis.py:113-136 | the width and length lists have one entry per crack; the distribution list is no longer, and equally long iff every crack's mask has pixels |
| CrackAnalysis.DistributionEntryFacts | CoreAnalysisApp/crack_analysis.py:113-125 | each distribution entry belongs to an accepted crack with pixels, its values are non-negative, min ≤ mean ≤ max, and min and max occur among its values |
| CrackAnalysis.RepresentativeWidthFacts | CoreAnalysisApp/crack_analysis.py:127-131 | a crack's representative width is non-negative and equals the max of its distribution when it has one |
| CrackAnalysis.LargestRegion | CoreAnalysisApp/crack_analysis.py:151 | the chosen region is one of the regions, with an area no smaller than any other's |
| CrackAnalysis.Summarize | CoreAnalysisApp/crack_analysis.py:146-178 | the features are empty iff there are no cracks, no regions or no distributions; they are filled iff all three exist and the largest crack's index is inside the distribution list; the summary raises the index fault iff there are cracks, regions and distributions and the largest crack's index is past the distribution list |
| CrackAnalysis.ProcessCrack | CoreAnalysisApp/crack_analysis.py:13-188 | a missing image gives `{}`; otherwise the result is the filtered mask, the accepted cracks, the summary of them over the label grid's regions, the widths and the distributions, or the index fault exactly when the summary raises it |
| CrackAnalysis.FeaturesFacts | CoreAnalysisApp/crack_analysis.py:166-178 | a completed summary reports the crack count, the total area, a mean area that is total over count and lies in the band, the direction class of the largest region's orientation, the longest length, the mean of all representative widths (平均宽度), and the length/width ratio with its zero default; it completes only with regions and distributions |
| CrackAnalysis.SummaryWellIndexed | CoreAnalysisApp/crack_analysis.py:153-174 | when every accepted crack has width values, the summary completes and reports the max, min and mean width of the first crack of largest area |
| CrackAnalysis.IndexFaultExample | CoreAnalysisApp/crack_analysis.py:156-159 | a first crack without width values and a larger second crack make `crack_width_distributions[largest_crack_idx]` fail |
| CrackAnalysis.MisattributedWidthsExample | CoreAnalysisApp/crack_analysis.py:156-172 | with three cracks whose first has no width values, the reported largest width (8) belongs to the third crack, not to the largest (whose width is 2) |
| Detection.InBandContours | CoreAnalysisApp/hole_analysis.py:53 | every contour kept by the band filter has its area in the band |
| Detection.InBandExactly | CoreAnalysisApp/grain_analysis.py:42 | a contour is kept iff it was found and its area is in the band |
| Detection.InBandMonotone | CoreAnalysisApp/hole_analysis.py:53 | raising `min_area` never lets more contours through |
| Detection.MeanAreaInBand | CoreAnalysisApp/hole_analysis.py:75 | the mean of in-band areas lies in the band |
| HoleAnalysis.Circularities | CoreAnalysisApp/hole_analysis.py:58-64 | there are no more circularities than accepted holes |
| HoleAnalysis.ProcessStoneHoles | CoreAnalysisApp/hole_analysis.py:9-81 | a missing image gives exactly the error string; otherwise the summary is that of the in-band contours: the count, the total area, the mean area, the mean circularity over holes with a positive perimeter, and the area list |
| HoleAnalysis.ScanHoles | CoreAnalysisApp/hole_analysis.py:49-69 | after the loop, the count, total area, circularities and area list are those of the in-band contours |
| HoleAnalysis.AddHole | CoreAnalysisApp/hole_analysis.py:53-69 | the accepted branch keeps count, total, circularities and area list equal to those of the accepted list with the contour appended |
| HoleAnalysis.Summary | CoreAnalysisApp/hole_analysis.py:72-78 | the result dictionary of the accepted holes; definition; its properties are in `SummaryFacts` |
| HoleAnalysis.SummaryFacts | CoreAnalysisApp/hole_analysis.py:72-78 | the area list has one in-band entry per hole, the total is its sum, and the mean is total over count inside the band, or 0 (with circularity 0) without holes |
| HoleAnalysis.CircularityCount | CoreAnalysisApp/hole_analysis.py:59-64 | there are fewer circularities than holes iff some counted hole has no perimeter |
| HoleAnalysis.CircularitiesNonNegative | CoreAnalysisApp/hole_analysis.py:62 | every circularity is non-negative when the measurements are |
| HoleAnalysis.HoleCountMonotone | CoreAnalysisApp/hole_analysis.py:53-55 | raising `min_area` never increases 孔洞数量 |
| GrainAnalysis.AnalyzeGrains | CoreAnalysisApp/grain_analysis.py:9-60 | a missing image gives the empty result; otherwise the area list is that of the in-band contours, the count is its length and the mean is its mean (0 when empty) |
| GrainAnalysis.AreasExactlyInBand | CoreAnalysisApp/grain_analysis.py:38-44 | every listed area is in the band, and every in-band contour's area is listed |
| GrainAnalysis.MeanAreaBounds | CoreAnalysisApp/grain_analysis.py:54 | a non-empty area list has its mean in the band |
| GrainAnalysis.GrainCountMonotone | CoreAnalysisApp/grain_analysis.py:9 | with the default band, raising `min_area` never increases 粒子数量 |
| RequestParams.PyInt | CoreAnalysisApp/app.py:274-280 | `int()` of a JSON value: a TypeError iff it is null, a list or an object; an OverflowError iff an infinite float; a ValueError iff NaN or text `ParseInt` rejects; otherwise 0 or 1 for a bool, the int itself, the truncated float or the parsed integer |
| RequestParams.Unbounded | CoreAnalysisApp/app.py:277 | the `inf` sentinel test; definition; its properties are in `SentinelSpellings` |
| RequestParams.ControlsStripped | CoreAnalysisApp/app.py:274 | `int()` strips vertical tab and form feed around the digits: `int("\x0b5\x0c")` is 5 |
| RequestParams.SeparatorsNotStripped | CoreAnalysisApp/app.py:274 | the separators 28 and 31 next to a digit are not stripped, so `int()` raises ValueError |
| RequestParams.OverLongRejected | CoreAnalysisApp/app.py:274-280 | text of more than 4300 digits, with or without a minus sign, is a ValueError (the default `int_max_str_digits` limit) |
| RequestParams.Trunc | CoreAnalysisApp/app.py:274-275 | `int()` of a finite float truncates toward zero |
| RequestParams.ShowNat | CoreAnalysisApp/app.py:180 | the digits that `str(data)` writes for the magnitude of a NumPy `int64` are non-empty and all decimal digits |
| RequestParams.IntRoundTrip | CoreAnalysisApp/app.py:274-280 | for every integer of at most 4300 digits (beyond that `str()` itself raises), the model's parser accepts its decimal text and gives back that integer |
| RequestParams.CheckParams | CoreAnalysisApp/app.py:272-294 | accepted parameters have `min_area ≥ 1`, a threshold in 0..255, and `min_area ≤ max_area` when `max_area` is finite |
| RequestParams.CrackRequest | CoreAnalysisApp/app.py:243-297 | a request is accepted only when the body is an object and its file can be read |
| RequestParams.ValidateCrackRequest | CoreAnalysisApp/app.py:243-297 | the route's early-return sequence reaches exactly the decision of `CrackRequest` |
| RequestParams.AcceptedExactly | CoreAnalysisApp/app.py:272-294 | parameters are accepted iff every needed conversion succeeds and every range and ordering check passes, and then with the converted values and `max_area` unbounded iff it was the sentinel |
| RequestParams.OrderingBeforeRanges | CoreAnalysisApp/app.py:282-294 | a finite `max_area` below `min_area` is reported as the ordering error with status 400, whatever the ranges |
| RequestParams.MinAreaConvertedFirst | CoreAnalysisApp/app.py:272-287 | a failed `min_area` conversion is reported first: as a 400 naming `min_area` for a ValueError, and as a 500 for a TypeError or OverflowError |
| RequestParams.DefaultsApply | CoreAnalysisApp/app.py:249-252 | a body naming only a readable file is analysed with 1000, unbounded and 100 |
| RequestParams.SentinelSpellings | CoreAnalysisApp/app.py:277 | `None`, `""`, `INF` and `Infinity` count as unbounded; a padded `" inf"` and a number do not |
| RequestParams.BodyShape | CoreAnalysisApp/app.py:243-259 | an empty body is the 400 empty-request error, a non-object body a 500, and an object without a file name the missing-filename error |
| Serialization.ToList | CoreAnalysisApp/app.py:157-158 | `tolist()` gives a plain value, with one list element per row |
| Serialization.Convert | CoreAnalysisApp/app.py:153-184 | dicts keep their keys in order, lists keep their length, a set becomes the list of its elements unchanged, and any other object becomes its text |
| Serialization.ConvertMembers | CoreAnalysisApp/app.py:166-170 | each dict value and list element is converted on its own, in place |
| Serialization.ConvertPlainIdentity | CoreAnalysisApp/app.py:166-176 | a value that is already plain is returned unchanged |
| Serialization.ConvertMakesPlain | CoreAnalysisApp/app.py:153-180 | the result is plain whenever every set in the input holds plain elements |
| Serialization.ConvertIdempotent | CoreAnalysisApp/app.py:153-180 | under that condition, converting twice is the same as converting once |
| Serialization.SetsNotWalkedInto | CoreAnalysisApp/app.py:172-173 | a set holding a `float32` comes out not plain, and a second pass changes it |
| Serialization.Int64BecomesText | CoreAnalysisApp/app.py:175-180 | a NumPy `int64` becomes its decimal text, which parses back to the same integer (a 64-bit value has at most 19 digits, `Int64Digits`) |
| DesktopTools.ToolState.constructor | CoreAnalysisApp/gui_main.py:44-54 | all tools start off, nothing is being drawn or dragged, and the plot type is histogram |
| DesktopTools.ToolState.ToggleZoom | CoreAnalysisApp/gui_main.py:913-915 | only the zoom switch changes |
| DesktopTools.ToolState.TogglePan | CoreAnalysisApp/gui_main.py:917-921 | the pan switch is set, and switching it off forgets the drag origin |
| DesktopTools.ToolState.TogglePen | CoreAnalysisApp/gui_main.py:923-930 | the pen switch is set, and switching it off ends drawing and clears the last point |
| DesktopTools.ToolState.OnMousePress | CoreAnalysisApp/gui_main.py:832-848 | outside the axes nothing changes; a left press with the pen on starts drawing at the cursor; otherwise, with panning on, the cursor becomes the drag origin; the tool invariant is kept |
| DesktopTools.ToolState.OnMouseRelease | CoreAnalysisApp/gui_main.py:850-863 | drawing always ends; a release while drawing clears the last point, and otherwise, with panning on, it ends the drag |
| DesktopTools.ToolState.OnMouseMotion | CoreAnalysisApp/gui_main.py:865-911 | while drawing, a segment from the last point to the cursor is added and the cursor becomes the last point; otherwise an active drag moves its origin to the cursor |
| DesktopTools.ToolState.ChangePlotType | CoreAnalysisApp/gui_main.py:763-807 | choosing the current type changes nothing and does nothing; another type is stored and the action is `Replot` of the stored analysis; no other field changes |
| DesktopTools.ToolState.RecordAnalysis | CoreAnalysisApp/gui_main.py:374-377 | `run_analysis` stores the result and its kind and changes nothing else (also lines 413-416 and 511-514) |
| DesktopTools.Replot | CoreAnalysisApp/gui_main.py:771-807 | without a non-empty result and a kind, the 请先进行分析 notice; a chart iff the kind's list is present and has a positive value, and then of exactly the positive values with the kind's title and axis label; a present list without positive values gives the no-valid-data notice |
| DesktopTools.ReplotDrawsChart | CoreAnalysisApp/gui_main.py:554-568 | a replot never reaches `plot_distribution`'s no-data or invalid-data text, and in pie mode always draws a pie |
| Charts.PlanChart | CoreAnalysisApp/gui_main.py:548-756 | the no-data text iff the data is empty, the invalid-data text iff it is non-empty without a positive value, a histogram iff that mode has positive values (of those values, with 1 to 20 bins, no more than values), a line chart only in line mode of the positive values, a pie only in pie mode with an analysis kind and the pie's title |
| Charts.PieChart | CoreAnalysisApp/gui_main.py:654-756 | either a pie or the 数据不足以生成饼图 text; a pie has equally many sizes, labels and colours, only positive sizes, the three group sizes' total and the kind's title |
| Charts.GroupSizes | CoreAnalysisApp/gui_main.py:660-665 | the three counts `[small, medium, large]`; definition; its properties are in `GroupsPartition`, `GroupSizesSum` and `GroupsNotAllSmallOrLarge` |
| Charts.PositiveEmpty | CoreAnalysisApp/gui_main.py:565-568 | the filtered list is empty iff no value of the data is positive |
| Charts.Positive | CoreAnalysisApp/gui_main.py:565 | the filtered list is no longer than the data and holds only positive values |
| Charts.PositiveExactly | CoreAnalysisApp/gui_main.py:565 | a value is kept iff it is in the data and positive, and nothing is dropped iff every value is positive |
| Charts.BinCount | CoreAnalysisApp/gui_main.py:581-586 | for non-empty data the bin count is between 1 and both the number of values and 20 |
| Charts.HistogramBins | CoreAnalysisApp/gui_main.py:578-586 | the histogram gets `n` bins below 10 values, `min(10, distinct)` below 50 and `min(20, distinct)` from 50 on |
| Charts.GroupsPartition | CoreAnalysisApp/gui_main.py:660-663 | with a non-negative mean, the small, medium and large groups cover every value exactly once |
| Charts.GroupSizesSum | CoreAnalysisApp/gui_main.py:660-665 | the three group sizes add up to the number of positive values |
| Charts.GroupsNotAllSmallOrLarge | CoreAnalysisApp/gui_main.py:660-663 | neither the small nor the large group holds every value |
| Charts.KeptSizes | CoreAnalysisApp/gui_main.py:674-678 | dropping the empty groups keeps the total count and leaves only positive sizes |
| Charts.KeptThree | CoreAnalysisApp/gui_main.py:674-678 | of the three groups, the entries that remain are those of the non-empty groups, in order |
| Charts.KeepNonEmpty | CoreAnalysisApp/gui_main.py:670-678 | the loop fills `valid_sizes`, `valid_labels` and `valid_colors` with the entries of the non-empty groups, in order |
| Charts.PieAlwaysAvailable | CoreAnalysisApp/gui_main.py:654-756 | a pie of positive values is always drawn, never the 数据不足以生成饼图 text, and shows the non-empty groups with their labels and the analysis's title |
| Charts.SumPositive | CoreAnalysisApp/gui_main.py:658-659 | a non-empty list of positive values has a positive total, so the pie's `total_area > 0` test always passes |
| Stats.FirstArgMax | CoreAnalysisApp/crack_analysis.py:156 | the index is in range, its value is the largest, and every earlier value is smaller (numpy's first maximum) |
| Stats.MeanBetweenMinAndMax | CoreAnalysisApp/crack_analysis.py:115-117 | the mean of a non-empty list lies between its minimum and its maximum |

## Left out

- Image processing is not modelled. A `ContourImage` or `CrackImage` supplies its results as inputs. This covers grayscale conversion, blurring, CLAHE, bilateral filtering, thresholds and morphology, `ndimage.label`, `findContours`, the convex hull, `contourArea`, `arcLength`, the distance transform and `regionprops`.
- Drawing onto the result images is not modelled. This covers the contour lines, the approximated polygons and the copies of the input image, since those are OpenCV drawing calls.
- Floating point is not modelled. Areas, widths and means are exact reals; `np.pi`, `np.pi / 4` and `1e-10` are their decimal values; `float32` rounding is ignored.
- The web service's transport is not modelled: Flask routing, uploads, `request.get_json` decoding and its errors, `cv2.imread`, base64 encoding of images, and the other routes. Whether an uploaded file can be read is the `readable` parameter of `CrackRequest`.
- The messages the route builds with dynamic text (the file path, the exception text) are not modelled. Each rejection is a `Rejection` case with its status.
- The route's mock fallbacks, its handling of a `None` result from `process_crack`, and the response assembly after the call are not modelled.
- RequestParams.ParseInt: Python's `int()` also strips non-ASCII whitespace and accepts non-ASCII decimal digits. The model accepts only ASCII digits and ASCII whitespace. The digit limit is the default 4300; a limit changed through `PYTHONINTMAXSTRDIGITS` or `sys.set_int_max_str_digits`, and the Python releases that predate the limit, are not modelled.
- RequestParams.PyInt: for text it is exactly as complete as `ParseInt`, so the gaps on the line above (non-ASCII whitespace and digits, a non-default digit limit) apply to it too.
- RequestParams.LowerAscii: `str.lower()` also lowercases non-ASCII letters, which the model leaves as they are. The sentinel test is unaffected, because no non-ASCII letter lowercases to a plain `i`, `n`, `f`, `t` or `y`.
- Serialization.Convert: the `try`/`except` that turns a failure (such as a `RecursionError`) into `None` is not modelled. Dict keys are modelled as strings only, and a set's iteration order is given as its element sequence.
- The warning `print` calls of `convert_to_serializable` are left out, since they are console output.
- DesktopTools: the Tk widgets, the matplotlib drawing, pen colour and size, and the zoom and pan axis-limit arithmetic are not modelled. A pen stroke is recorded as the segment the motion handler plots.
- DesktopTools.AnalysisResult: the stored analysis result is modelled only as its truthiness and its list entries. The rest of `run_analysis` (the dialogs, the display of the images and the text of the results) is not modelled.
- DesktopTools.ToolState.ChangePlotType: the chart that `plot_distribution` then draws is stated separately, by `PlanChart` and `ReplotDrawsChart`; message boxes are the `Notify` action.
- Detection.Contour: `distValues` is not tied to the contour's area, so the model admits an accepted crack whose filled mask is empty, which OpenCV most likely never produces.
- Charts: the chart's rendering is not modelled. This covers the bar labels, the percentile-based axis limits, the line chart's `sorted` order (the line chart is given the unsorted positive values) and the pie's explode and percentage options.
- The other `gui_main.py` code (menus, file dialogs, result display, export) and `setup.py` are not modelled, since they are interface and packaging code.
