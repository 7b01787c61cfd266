# Histogram equalization and iterative quantization of an intensity channel

A Dafny model of the integer core of the two point operations in
`ex1_utils.py`:

- `hsitogramEqualize` builds the 256-bin histogram of a channel and its
  running sum. From these it builds the lookup table
  `ceil(cumSum / cumSum.max() * 255)`, rewrites every pixel through the
  table, counts the result and rescales it to [0,1].
- `quantizeImage` reads a mass-balanced first list of segment boundaries
  (`slices`) off the running histogram. Then it runs `nIter` passes. Each
  pass computes:
  - the truncated weighted mean `Qi[j]` of every segment, over the original
    histogram;
  - the repainted working image;
  - the midpoint boundaries for the next pass;
  - the recorded image and its mean absolute change.

Both work on one channel: a flattened, non-empty sequence of whole levels
0..255.

## Modules

- `histograms.dfy` (`Histograms`): the histogram and the running sum.
  - `np.histogram(a, bins=256)` is modelled as it is computed: 256 equal
    bins over the channel's own range `[min, max]`, with the last bin
    closed. A constant channel is widened to `[v - 1/2, v + 1/2]`, so it
    lands in bin 128.
  - The bin edges are dyadic, so the binning is decided exactly by integer
    cross-multiplication.
  - On a channel spanning 0..255 (what min-max scaling produces), bin b
    holds exactly the pixels at level b.
- `equalizer.dfy` (`Equalizer`): the lookup table, the level-by-level
  rewrite (an `array` updated in place) and the whole equalization.
- `slicing.dfy` (`Slicing`): the first boundary scan, Python's
  `list.insert`, and the shape of the starting list, including the inputs
  that break it.
- `segments.dfy` (`Segments`): segment masses and weighted sums, the
  representatives `Qi` and the two exceptions the segment loop can raise.
- `assignment.dfy` (`Assignment`): the repainting pass (an `array` painted
  in place, segment by segment).
- `quantizer.dfy` (`Quantizer`), which covers:
  - the midpoint update of `slices`;
  - the mean absolute error;
  - one pass and a run of passes over an explicit loop state (`Trace`);
  - the record of images and errors, and the whole quantization;
  - the imperative loop `Iterate` and `QuantizeImage`, each proved equal
    to the functional definition.

The methods reproduce the source's loops. Each method's `ensures` ties its
result to the function that defines it, and the properties are proved as
lemmas about those functions.

## Behaviour at the edges

At the edges the code behaves as follows, and the model with it:

- `nQuant < 1` and `nIter < 0` are not rejected.
  - `nIter <= 0` runs no pass and returns two empty lists.
  - `nQuant <= 0` paints every pixel 0.
  - With `nQuant <= 0`, every pass also leaves the boundaries at `[255, 0]`.
    The list is cleared, 0 is inserted in front, and 255 is inserted at
    position `nQuant`, which puts it before the 0. So the boundaries no
    longer increase (`MidpointsNoLevels`).
- Too few starting boundaries make the first pass raise. The segment loop
  reads `slices[j + 1]` past the end and raises an IndexError, which is
  modelled as `MissingBoundary(j)`. This holds unless an earlier segment is
  already empty, which raises first (`EmptySegment`).
- An empty segment raises. `Pi.sum()` is 0, the quotient is `nan` and
  `int(nan)` raises. This is modelled as `EmptySegment(j)`.
- With one level (`nQuant == 1`):
  - Every pixel above level 0 takes the truncated mean of bins 0..254,
    that is, of the pixels below the top bin.
  - Pixels at level 0 stay 0.
  - Every later pass repeats that image with error 0 (`QuantizeOneLevel`).
- More than a share `1/nQuant` of the pixels in the lowest bin
  (`nQuant >= 2`) makes the first pass raise. The same holds for exactly
  that share, which includes a two-level image half at 0 and half at 255
  quantized to two levels (`QuantizeCrowdedFloor`).

## Model

| member | source | states |
|---|---|---|
| Histograms.BinOf | ex1_utils.py:109 | the bin of a value among 256 equal bins over [lo, hi]: in 0..255, with the left edge at or below the value and the next edge above it; the maximum goes to bin 255 and a constant channel to bin 128 |
| Histograms.Min | ex1_utils.py:109 | the lower end of the histogram's range is a pixel of the channel and no pixel lies below it |
| Histograms.Max | ex1_utils.py:109 | the upper end of the histogram's range is a pixel of the channel and no pixel lies above it |
| Histograms.Tally | ex1_utils.py:109 | counting bin indices gives 256 counts, each the multiplicity of its bin, adding up to the number of indices |
| Histograms.Histogram | ex1_utils.py:109 | 256 counts that add up to the number of pixels; bin b counts exactly the pixels whose bin is b |
| Histograms.FullRangeHistogram | ex1_utils.py:107-109 | on a channel spanning 0..255 each bin counts the pixels at its own level |
| Histograms.BottomBinOccupied | ex1_utils.py:109 | the darkest pixel's bin lies below the top bin and is non-empty |
| Histograms.CumSum | ex1_utils.py:110 | same length as the histogram; the first entry is the first count and each entry adds the next count |
| Histograms.CumSumMonotone | ex1_utils.py:110 | the running sum never decreases |
| Histograms.CumSumLast | ex1_utils.py:110 | the last running sum is the total and bounds every entry, so it is `cumSum.max()` |
| Histograms.HistogramCumulative | ex1_utils.py:109-110 | the channel's running histogram is non-decreasing, positive at the end, and ends at the pixel count |
| Histograms.ToUnit | ex1_utils.py:119 | the channel divided by 255: same length, every value in [0,1], and 255 times each value gives the level back |
| Equalizer.CeilDiv | ex1_utils.py:112 | the least r with r*b >= a (the ceiling of a/b) |
| Equalizer.Lut | ex1_utils.py:112 | entry i is the least L with L*C[255] >= C[i]*255, i.e. `ceil(C[i]/C[255]*255)` computed exactly |
| Equalizer.LutRange | ex1_utils.py:112 | every entry is a level, `LUT[255] == 255`, and an entry is 0 exactly when the running sum is 0 there |
| Equalizer.LutMonotone | ex1_utils.py:112 | the table never decreases in the level |
| Equalizer.EqualizationLut | ex1_utils.py:109-112 | the table built from the channel's own histogram has 256 level entries |
| Equalizer.Equalized | ex1_utils.py:113-115 | the rewritten channel has the channel's size and only levels |
| Equalizer.EqualizedOrder | ex1_utils.py:113-115 | equalization preserves the order of any two pixels, and level 255 stays 255 |
| Equalizer.ApplyLut | ex1_utils.py:113-115 | after the 256 masked passes over a copy, each pixel equals the table entry of its original level (each pixel is rewritten exactly once) |
| Equalizer.HistogramEqualize | ex1_utils.py:107-119 | returns the histogram before and after equalization, both summing to the pixel count, and the equalized channel rescaled to [0,1] |
| Slicing.PyInsert | ex1_utils.py:153 | `list.insert`: one longer; an index at or past the end appends, and index 0 (or one at or before the front) prepends |
| Slicing.InsertPermutes | ex1_utils.py:153 | an insertion adds exactly the inserted element to the multiset of the list |
| Slicing.InsertLevel | ex1_utils.py:153 | inserting a level into a list of levels gives a list of levels |
| Slicing.Scan | ex1_utils.py:146-151 | after levels 0..i-1 the list starts at 0, its length is the counter k, and the appended levels are strictly increasing and below i |
| Slicing.ScanBalanced | ex1_utils.py:145-151 | every appended boundary meets its own target: at the j-th boundary the running sum is at most j/nQuant of the pixels and at the next level at least that |
| Slicing.ScanSkipsAfter | ex1_utils.py:145-151 | no level examined after the last appended boundary meets the pending target, so the scan never misses a level that would have been appended |
| Slicing.ScanSkipsBelow | ex1_utils.py:145-151 | no level strictly between the (j-1)-th and the j-th boundary meets the j-th target, so each boundary is the first level that meets it |
| Slicing.InitialBalanced | ex1_utils.py:145-153 | in a well-formed starting list every inner boundary lies in 0..254 and meets its own target j/nQuant |
| Slicing.ScanBound | ex1_utils.py:145-151 | the scan finds at most nQuant boundaries, so k never exceeds nQuant + 1 |
| Slicing.ScanPrefix | ex1_utils.py:148-151 | the scan only appends: the list after fewer levels is a prefix of the list after more |
| Slicing.InitialShape | ex1_utils.py:145-153 | the starting list ends in 255, has 1..nQuant+1 entries, starts at 0 when longer than one, is strictly increasing after the 0, and is a partition into nQuant segments exactly when it has nQuant + 1 entries |
| Slicing.ScanCrowded | ex1_utils.py:145-151 | when the lowest bin holds more than 1/n of the pixels no level reaches the first target |
| Slicing.CrowdedFloorInitial | ex1_utils.py:145-153 | then the starting list is just [255] |
| Slicing.ExactFloorInitial | ex1_utils.py:145-153 | when the lowest bin holds exactly 1/n of the pixels (n >= 2), the list is [0, 255] or its first segment is [0, 0) |
| Slicing.ScanOneLevel | ex1_utils.py:145-151 | with one level the counter advances once, at the first level whose running sum reaches the total |
| Slicing.InitialOneLevel | ex1_utils.py:145-153 | with one level the starting list is [0, 255] |
| Slicing.InitialSlices | ex1_utils.py:145-153 | the loop, `pop` and `insert` build exactly the starting list |
| Segments.MassSplit | ex1_utils.py:161 | masses of adjacent level ranges add up |
| Segments.MomentBounds | ex1_utils.py:160-162 | a range's weighted sum lies between its lowest and highest level times its mass |
| Segments.MeanInRange | ex1_utils.py:162 | the truncated mean of a non-empty range is one of its levels |
| Segments.SegmentMean | ex1_utils.py:159-162 | `Qi[j]` exists exactly when segment j has an upper boundary and a positive mass; otherwise it is an IndexError or an empty-segment failure; when it exists it lies in [slices[j], slices[j+1]) |
| Segments.SegmentMeanFloor | ex1_utils.py:162 | `Qi[j]` is the mean rounded down: q*mass <= weighted sum < (q+1)*mass |
| Segments.Representatives | ex1_utils.py:158-163 | a successful `Qi` has one entry per segment, and then the list has more than n boundaries |
| Segments.RepresentativesSpec | ex1_utils.py:158-163 | `Qi` succeeds exactly when every segment's mean exists, and then holds them in order; otherwise it fails with the error of the first failing segment |
| Segments.RepresentativesStop | ex1_utils.py:159-163 | the first failing segment decides the outcome of any longer loop |
| Segments.RepresentativesTooFew | ex1_utils.py:159-161 | with at most n boundaries `Qi` fails, with an IndexError at the first missing boundary unless an earlier segment is empty |
| Segments.SegmentMeans | ex1_utils.py:158-163 | the loop that appends `Qi[j]` returns exactly the representatives, or the first exception |
| Assignment.PaintLevel | ex1_utils.py:157-166 | a repainted pixel is 0 or one of the representatives, hence a level |
| Assignment.PaintLargest | ex1_utils.py:165-166 | a pixel takes `Qi[k]` for the largest k with value > slices[k], and stays 0 when there is none |
| Assignment.PaintInterval | ex1_utils.py:165-166 | over a partition, pixels in (s[j], s[j+1]] take `Qi[j]`, the last segment also takes everything above s[n-1], and pixels at 0 stay 0 |
| Assignment.Painted | ex1_utils.py:157-166 | the repainted image has the working image's size and is made of levels when the representatives are |
| Assignment.Repaint | ex1_utils.py:157-166 | the zero buffer painted in place segment by segment ends with every pixel equal to the largest-index rule |
| Quantizer.RepresentativesInSegments | ex1_utils.py:158-163 | every representative lies in its own segment, so all are levels |
| Quantizer.Mids | ex1_utils.py:169-170 | one midpoint per pair of consecutive representatives |
| Quantizer.MidsBetween | ex1_utils.py:169-170 | midpoint i is `(Qi[i] + Qi[i+1]) // 2`, a level when the representatives are |
| Quantizer.Midpoints | ex1_utils.py:168-173 | the new boundaries are levels, nQuant + 1 of them (2 when nQuant <= 1) |
| Quantizer.MidpointsPartition | ex1_utils.py:168-173 | for non-decreasing representatives the new list is `[0, midpoints..., 255]`, a partition into nQuant segments, each interior boundary between the two representatives it separates |
| Quantizer.MidpointsNoLevels | ex1_utils.py:168-173 | with nQuant <= 0 the rebuilt boundaries are [255, 0]: 255 is inserted before the 0, so the list no longer increases |
| Quantizer.UpdateSlices | ex1_utils.py:168-173 | `clear`, the appends and the two inserts build exactly the midpoint list |
| Quantizer.AbsDiffSumZero | ex1_utils.py:175 | the total absolute difference is 0 exactly when the images are equal |
| Quantizer.MeanAbsError | ex1_utils.py:175 | the recorded error is never negative and is 0 exactly when the pass changed nothing |
| Quantizer.Pass | ex1_utils.py:157-173 | a pass fails exactly when `Qi` fails, with the same error; otherwise it yields level boundaries and a level image of the working image's size |
| Quantizer.RunPass | ex1_utils.py:157-173 | the body of one iteration computes exactly the pass |
| Quantizer.Step | ex1_utils.py:157-177 | a whole iteration fails exactly when `Qi` fails, and otherwise keeps boundaries and image levels and the image size |
| Quantizer.Run | ex1_utils.py:156-177 | after any number of passes the boundaries and image are levels and the image keeps its size |
| Quantizer.StepOutcome | ex1_utils.py:175-177 | unfolding step for one pass: an iteration appends exactly the repainted image and its error, and the image becomes the new working image |
| Quantizer.RunOutcome | ex1_utils.py:156-177 | unfolding step for the loop: t passes are the first pass followed by t - 1 more, or the first pass's exception |
| Quantizer.RunStep | ex1_utils.py:156 | unfolding step for the loop: a successful pass hands its trace to the remaining passes |
| Quantizer.RunUnfold | ex1_utils.py:156 | unfolding step for the loop: a successful run of t > 0 passes starts with a successful pass |
| Quantizer.RecordAt | ex1_utils.py:175-177 | every recorded image is a level image of the channel's size, and each error is the mean absolute change from the image before it (the channel for the first) |
| Quantizer.RecordsEach | ex1_utils.py:175-177 | every recorded image is a level image of the channel's size and every error is non-negative |
| Quantizer.StepRecords | ex1_utils.py:175-177 | a successful iteration extends the record by exactly one image and one error |
| Quantizer.RunRecords | ex1_utils.py:154-177 | a successful run of t passes extends the record by exactly t images and t errors |
| Quantizer.WorkIsLastImage | ex1_utils.py:176 | after t > 0 passes from the channel the run has recorded exactly t images and the working image is the t-th of them |
| Quantizer.RunRecordsFrom | ex1_utils.py:156-177 | by induction on the passes: whatever a successful run from a recorded state ends in is still a record of the channel, t entries longer |
| Quantizer.RepresentativesOrdered | ex1_utils.py:159-163 | over a partition the representatives never decrease |
| Quantizer.StepKeepsPartition | ex1_utils.py:159-173 | a successful pass over a partition yields a partition |
| Quantizer.RunKeepsPartition | ex1_utils.py:156-173 | starting from a partition, every later boundary list is a partition into nQuant segments |
| Quantizer.MassIsSum | ex1_utils.py:161 | the mass of levels 0..i-1 is the sum of the first i counts |
| Quantizer.SegmentMassesPrefix | ex1_utils.py:160-161 | the first k segments of a partition together hold the pixels below boundary k |
| Quantizer.SegmentMassTotal | ex1_utils.py:160-161 | the segments of a partition count every pixel once except those in the top bin, which no segment counts |
| Quantizer.Units | ex1_utils.py:177 | each recorded image is divided by 255 |
| Quantizer.Outputs | ex1_utils.py:177-183 | the returned lists have one entry per pass, every image is of the channel's size with values in [0,1], and every error is non-negative |
| Quantizer.Start | ex1_utils.py:143-155 | the loop starts from level boundaries, with the channel as working image and an empty record |
| Quantizer.Quantize | ex1_utils.py:127-183 | a successful quantization returns max(nIter, 0) images and as many errors, every image of the channel's size in [0,1], every error non-negative |
| Quantizer.QuantizeOutcome | ex1_utils.py:154-183 | a successful run returns the rescaled record of that run |
| Quantizer.RunFailsAtOnce | ex1_utils.py:156-163 | a run whose first pass cannot compute `Qi` raises that exception |
| Quantizer.QuantizeTooFewBoundaries | ex1_utils.py:145-161 | too few starting boundaries make the quantization raise, with an IndexError at the first missing one unless an earlier segment is empty |
| Quantizer.QuantizeCrowdedFloor | ex1_utils.py:145-162 | when the lowest bin holds at least 1/nQuant of the pixels (nQuant >= 2), the quantization raises; strictly more makes it the IndexError for segment 0 |
| Quantizer.BelowTopMean | ex1_utils.py:162 | the truncated mean of the pixels below the top bin is a level below 255 |
| Quantizer.OneLevelMean | ex1_utils.py:158-163 | with boundaries [0, 255], `Qi` is that mean, or an empty-segment failure when no pixel lies below the top bin |
| Quantizer.OneLevelMidpoints | ex1_utils.py:168-173 | one representative leaves the boundaries at [0, 255] |
| Quantizer.OneLevelPaint | ex1_utils.py:165-166 | with one segment, pixels above 0 take the representative and pixels at 0 stay 0 |
| Quantizer.Flattened | ex1_utils.py:165-166 | the one-level repainted image is the working image's size and made of levels |
| Quantizer.FlattenedIdempotent | ex1_utils.py:165-166 | repainting a one-level image with the same representative changes nothing |
| Quantizer.OneLevelPass | ex1_utils.py:157-173 | a one-level pass keeps [0, 255] and flattens the image, failing only when no pixel lies below the top bin |
| Quantizer.OneLevelStep | ex1_utils.py:157-177 | a one-level iteration records the flattened image and its distance from the working image |
| Quantizer.OneLevelStart | ex1_utils.py:143-153 | with one level the starting boundaries are [0, 255] and the pixels below the top bin are never zero |
| Quantizer.OneLevelRun | ex1_utils.py:156-177 | t >= 1 one-level passes record the flattened image t times, with the first pass's change as the first error and 0 after it |
| Quantizer.OneLevelFromStart | ex1_utils.py:142-177 | the one-level run from a channel's starting state, as above |
| Quantizer.UnitsCopies | ex1_utils.py:177 | rescaling repeated copies of an image gives repeated copies of the rescaled image |
| Quantizer.QuantizeOneLevel | ex1_utils.py:127-183 | quantizing to one level never raises: all nIter images are the same flattened channel in [0,1], the first error is its distance from the channel, and the rest are 0 |
| Quantizer.Iterate | ex1_utils.py:154-177 | the `for i in range(nIter)` loop computes exactly max(nIter, 0) passes, or the exception of the first failing one |
| Quantizer.QuantizeImage | ex1_utils.py:142-183 | the whole grayscale path returns exactly the functional quantization |

## Left out

- Reading and displaying images (`imReadAndConvert`, `imDisplay`, lines 32-66) is file I/O, process exit and plotting. `myID` (line 24) is a constant.
- The colour path is left out: RGB to YIQ and back (lines 69-91, 103-106, 120-122, 138-141, 178-181). It is floating-point matrix arithmetic; only the grayscale channel is modelled.
- Min-max scaling and the 8-bit cast (lines 107-108, 142, and `normalizeData` at 200-201) happen inside an opaque library in floating point. They are replaced by the precondition that the channel is non-empty and made of levels 0..255.
- Slicing.Straddles: the float test `cumSum[i] <= cumSum.max() / nQuant * k <= cumSum[i + 1]` is modelled by exact cross-multiplication. The case where float rounding flips a comparison that is exact in rationals is not modelled.
- Equalizer.Lut: `np.ceil` of the float ratio is modelled as the exact ceiling. A float product that lands just above an integer and rounds the ceiling up by one is not modelled.
- Segments.SegmentMean: `int(sum / mass)` is modelled as exact integer division. Truncation toward zero and flooring agree because both operands are non-negative. Float rounding of very large quotients is not modelled.
- Quantizer.MeanAbsError: the float mean of `sqrt((a - b) ** 2)` is modelled as the exact rational mean of absolute differences.
- Histograms.ToUnit and Quantizer.Units: the division by 255 is exact real division, not float.
- The working images are modelled as sequences of integer levels. The source's `temp_img` is a float array, but it only ever holds the integer levels `Qi[k]` or 0.
- Equalizer.ApplyLut and Assignment.Repaint update a local `array` in place. The channel they read is an immutable sequence, so aliasing between input and output is not modelled.
- The equalized histogram `histEq` (line 117) is the same `Histogram` function applied to the equalized channel. Only its total is stated, because its bins span the equalized channel's own range.
- The lines after `return` (189-197) are unreachable and not modelled.
