/** Iterative quantization of one intensity channel into nQuant levels: each
    pass computes the segment representatives, repaints the working image,
    moves the boundaries to the midpoints of the representatives and records
    the image and its mean absolute change. */
module Quantizer {
  import opened Histograms
  import opened Slicing
  import opened Segments
  import opened Assignment

  /** Every representative of a successful pass lies in its own segment, so
      it is a level below 255. */
  lemma RepresentativesInSegments(h: seq<nat>, s: seq<int>, n: int)
    requires |h| == 256 && AllLevels(s) && Representatives(h, s, n).Ok?
    ensures var q := Representatives(h, s, n).value;
            AllLevels(q) && forall j :: 0 <= j < |q| ==> s[j] <= q[j] < s[j + 1]
  {
    var q := Representatives(h, s, n).value;
    RepresentativesSpec(h, s, n);
    forall j | 0 <= j < |q| ensures s[j] <= q[j] < s[j + 1] {
      assert SegmentMean(h, s, j) == Ok(q[j]);
    }
  }

  /** The truncated midpoints of consecutive representatives among the first
      k, in order. */
  function Mids(q: seq<int>, k: int): (m: seq<int>)
    requires k <= 1 || k <= |q|
    ensures |m| == (if k > 1 then k - 1 else 0)
    decreases k
  {
    if k <= 1 then [] else Mids(q, k - 1) + [(q[k - 2] + q[k - 1]) / 2]
  }

  /** Each midpoint lies between the two representatives it separates, so
      it is a level when they are. */
  lemma {:induction false} MidsBetween(q: seq<int>, k: int)
    requires k <= 1 || k <= |q|
    ensures forall i :: 0 <= i < |Mids(q, k)| ==> Mids(q, k)[i] == (q[i] + q[i + 1]) / 2
    ensures AllLevels(q) ==> AllLevels(Mids(q, k))
    decreases k
  {
    if k > 1 {
      MidsBetween(q, k - 1);
    }
  }

  /** The boundaries for the next pass: the truncated midpoints of consecutive
      representatives, then 0 inserted at the front and 255 at position n. */
  function Midpoints(q: seq<int>, n: int): (s: seq<int>)
    requires n <= |q| && AllLevels(q)
    ensures AllLevels(s)
    ensures |s| == (if n > 1 then n + 1 else 2)
  {
    MidsBetween(q, n);
    InsertLevel(Mids(q, n), 0, 0);
    InsertLevel(PyInsert(Mids(q, n), 0, 0), n, 255);
    PyInsert(PyInsert(Mids(q, n), 0, 0), n, 255)
  }

  /** With no levels asked for, the list is emptied, 0 goes in front and
      255 is inserted at position n <= 0, that is, before the 0: the new
      boundaries are [255, 0], which no longer increase. */
  lemma MidpointsNoLevels(q: seq<int>, n: int)
    requires n <= 0 && AllLevels(q)
    ensures Midpoints(q, n) == [255, 0]
  {
    assert Mids(q, n) == [];
    assert PyInsert([], 0, 0) == [0];
  }

  /** For non-decreasing representatives the new boundaries partition the
      levels into n segments again, each interior boundary lying between the
      two representatives it separates. */
  lemma MidpointsPartition(q: seq<int>, n: int)
    requires n >= 1 && |q| == n && AllLevels(q)
    requires forall j, j' :: 0 <= j <= j' < n ==> q[j] <= q[j']
    ensures WellFormed(Midpoints(q, n), n)
    ensures forall k :: 1 <= k < n ==> q[k - 1] <= Midpoints(q, n)[k] <= q[k]
  {
    var s := Midpoints(q, n);
    var mids := Mids(q, n);
    MidsBetween(q, n);
    assert s == [0] + mids + [255];
    forall k | 1 <= k < n ensures q[k - 1] <= s[k] <= q[k] {
      assert s[k] == mids[k - 1] && q[k - 1] <= q[k];
    }
    forall j, j' | 0 <= j <= j' <= n ensures s[j] <= s[j'] {
      if 1 <= j < j' < n {
        assert s[j] <= q[j] <= q[j' - 1] <= s[j'];
      }
    }
  }

  /** Rebuilds the boundaries from the representatives (lines 168-173 of ex1_utils.py):
      clear the list, append each truncated midpoint, insert 0 at the front
      and 255 at position nQuant. */
  method UpdateSlices(qi: seq<int>, nQuant: int) returns (slices: seq<int>)
    requires nQuant <= |qi| && AllLevels(qi)
    ensures slices == Midpoints(qi, nQuant)
  {
    slices := [];
    var k := 1;
    while k < nQuant
      invariant 1 <= k <= (if nQuant > 1 then nQuant else 1)
      invariant slices == Mids(qi, k)
    {
      slices := slices + [(qi[k - 1] + qi[k]) / 2];
      k := k + 1;
    }
    slices := PyInsert(slices, 0, 0);
    slices := PyInsert(slices, nQuant, 255);
  }

  function Abs(x: int): nat {
    if x < 0 then -x else x
  }

  /** Total absolute difference of two images of equal size. */
  function AbsDiffSum(a: seq<int>, b: seq<int>): nat
    requires |a| == |b|
  {
    if a == [] then 0 else AbsDiffSum(a[..|a| - 1], b[..|b| - 1]) + Abs(a[|a| - 1] - b[|b| - 1])
  }

  lemma {:induction false} AbsDiffSumZero(a: seq<int>, b: seq<int>)
    requires |a| == |b|
    ensures AbsDiffSum(a, b) == 0 <==> a == b
  {
    if a != [] {
      AbsDiffSumZero(a[..|a| - 1], b[..|b| - 1]);
      if a[..|a| - 1] == b[..|b| - 1] && a[|a| - 1] == b[|b| - 1] {
        assert a == a[..|a| - 1] + [a[|a| - 1]] && b == b[..|b| - 1] + [b[|b| - 1]];
      }
    }
  }

  /** `np.sqrt((tmpMat - temp_img) ** 2).mean()`, the mean absolute change
      between two images: never negative, and zero exactly when nothing
      changed. */
  function MeanAbsError(a: seq<int>, b: seq<int>): (e: real)
    requires |a| == |b| > 0
    ensures e >= 0.0
    ensures e == 0.0 <==> a == b
  {
    AbsDiffSumZero(a, b);
    AbsDiffSum(a, b) as real / |a| as real
  }

  /** The state of the quantization loop: the boundaries `slices`, the working
      image `tmpMat`, and the lists `iterImages` (kept as levels) and `MSE`
      built so far. */
  datatype Trace = Trace(slices: seq<int>, work: seq<int>, images: seq<seq<int>>, errors: seq<real>)

  /** The body of one pass (lines 157-173 of ex1_utils.py): the representatives of the
      current boundaries over the original histogram h, the working image
      repainted with them, and the midpoint boundaries for the next pass. */
  function Pass(h: seq<nat>, n: int, s: seq<int>, work: seq<int>): (r: Result<(seq<int>, seq<int>)>)
    requires |h| == 256 && AllLevels(s) && AllLevels(work)
    ensures r.Err? <==> Representatives(h, s, n).Err?
    ensures r.Err? ==> r.error == Representatives(h, s, n).error
    ensures r.Ok? ==> AllLevels(r.value.0) && AllLevels(r.value.1) && |r.value.1| == |work|
  {
    match Representatives(h, s, n)
    case Err(e) => Err(e)
    case Ok(qi) =>
      RepresentativesInSegments(h, s, n);
      Ok((Midpoints(qi, n), Painted(work, s, qi, n)))
  }

  /** Runs the body of one pass: `Qi`, then the repainted image, then the new
      boundaries, stopping at the first segment that raises. */
  method RunPass(histOrg: seq<nat>, slices: seq<int>, tmpMat: seq<int>, nQuant: int)
    returns (r: Result<(seq<int>, seq<int>)>)
    requires |histOrg| == 256 && AllLevels(slices) && AllLevels(tmpMat)
    ensures r == Pass(histOrg, nQuant, slices, tmpMat)
  {
    var qi := SegmentMeans(histOrg, slices, nQuant);
    if qi.Err? {
      return Err(qi.error);
    }
    RepresentativesInSegments(histOrg, slices, nQuant);
    var tempImg := Repaint(tmpMat, slices, qi.value, nQuant);
    assert tempImg == Painted(tmpMat, slices, qi.value, nQuant);
    var next := UpdateSlices(qi.value, nQuant);
    r := Ok((next, tempImg));
  }

  /** One whole pass of the loop (lines 157-177 of ex1_utils.py): the body, then one more
      image and one more error appended to the lists. */
  function Step(h: seq<nat>, n: int, tr: Trace): (r: Result<Trace>)
    requires |h| == 256 && AllLevels(tr.slices) && AllLevels(tr.work) && |tr.work| > 0
    ensures r.Ok? ==> AllLevels(r.value.slices) && AllLevels(r.value.work) && |r.value.work| == |tr.work|
    ensures r.Err? <==> Representatives(h, tr.slices, n).Err?
  {
    match Pass(h, n, tr.slices, tr.work)
    case Err(e) => Err(e)
    case Ok((next, out)) =>
      Ok(Trace(next, out, tr.images + [out], tr.errors + [MeanAbsError(tr.work, out)]))
  }

  /** The loop state after t more passes from tr, or the exception of the
      first of them that fails. */
  function Run(h: seq<nat>, n: int, tr: Trace, t: nat): (r: Result<Trace>)
    requires |h| == 256 && AllLevels(tr.slices) && AllLevels(tr.work) && |tr.work| > 0
    ensures r.Ok? ==> AllLevels(r.value.slices) && AllLevels(r.value.work) && |r.value.work| == |tr.work|
    decreases t
  {
    if t == 0 then Ok(tr)
    else
      match Step(h, n, tr)
      case Err(e) => Err(e)
      case Ok(next) => Run(h, n, next, t - 1)
  }

  /** A pass appends exactly what its body produced, or fails with the body's
      exception. */
  lemma StepOutcome(h: seq<nat>, n: int, tr: Trace, p: Result<(seq<int>, seq<int>)>)
    requires |h| == 256 && AllLevels(tr.slices) && AllLevels(tr.work) && |tr.work| > 0
    requires p == Pass(h, n, tr.slices, tr.work)
    ensures p.Err? ==> Step(h, n, tr) == Err(p.error)
    ensures p.Ok? ==> Step(h, n, tr) == Ok(Trace(p.value.0, p.value.1, tr.images + [p.value.1],
                                                 tr.errors + [MeanAbsError(tr.work, p.value.1)]))
  {
  }

  /** The image a pass starts from: the channel itself before the first
      pass, the last recorded image after. */
  function Latest(img: seq<int>, images: seq<seq<int>>): seq<int> {
    if images == [] then img else images[|images| - 1]
  }

  /** A run of t > 0 passes is its first pass followed by the remaining
      t - 1, or the first pass's exception. */
  lemma RunOutcome(h: seq<nat>, n: int, tr: Trace, t: nat, p: Result<(seq<int>, seq<int>)>)
    requires |h| == 256 && AllLevels(tr.slices) && AllLevels(tr.work) && |tr.work| > 0
    requires t > 0 && p == Pass(h, n, tr.slices, tr.work)
    ensures p.Err? ==> Run(h, n, tr, t) == Err(p.error)
    ensures p.Ok? ==> |p.value.1| == |tr.work|
    ensures p.Ok? ==>
              var next := Trace(p.value.0, p.value.1, tr.images + [p.value.1],
                                tr.errors + [MeanAbsError(tr.work, p.value.1)]);
              Run(h, n, tr, t) == Run(h, n, next, t - 1)
  {
    StepOutcome(h, n, tr, p);
  }

  /** The lists `iterImages` and `MSE` record passes from the channel img:
      one image and one error per pass, every image a channel of levels of
      img's size, every error the mean absolute change from the image before
      (img for the first pass). */
  predicate Records(img: seq<int>, images: seq<seq<int>>, errors: seq<real>)
    decreases |images|
  {
    && |img| > 0
    && |images| == |errors|
    && (images != [] ==>
          var k := |images| - 1;
          && Records(img, images[..k], errors[..k])
          && AllLevels(images[k]) && |images[k]| == |img|
          && |Latest(img, images[..k])| == |img|
          && errors[k] == MeanAbsError(Latest(img, images[..k]), images[k]))
  }

  /** A trace records its passes from img, and its working image is the last
      one recorded. */
  predicate Recorded(tr: Trace, img: seq<int>) {
    Records(img, tr.images, tr.errors) && tr.work == Latest(img, tr.images)
  }

  /** What a record says about its i-th entry. */
  lemma {:induction false} RecordAt(img: seq<int>, images: seq<seq<int>>, errors: seq<real>, i: int)
    requires Records(img, images, errors) && 0 <= i < |images|
    ensures AllLevels(images[i]) && |images[i]| == |img| && (i > 0 ==> |images[i - 1]| == |img|)
    ensures errors[i] == MeanAbsError(if i == 0 then img else images[i - 1], images[i])
    decreases |images|
  {
    var k := |images| - 1;
    if i < k {
      RecordAt(img, images[..k], errors[..k], i);
      assert images[..k][i] == images[i] && errors[..k][i] == errors[i];
      if i > 0 {
        assert images[..k][i - 1] == images[i - 1];
      }
    } else if k > 0 {
      assert images[..k][k - 1] == images[k - 1];
    }
  }

  /** What a record says about each of its entries. */
  lemma RecordsEach(img: seq<int>, images: seq<seq<int>>, errors: seq<real>)
    requires Records(img, images, errors)
    ensures forall i :: 0 <= i < |images| ==> AllLevels(images[i]) && |images[i]| == |img|
    ensures forall i :: 0 <= i < |errors| ==> errors[i] >= 0.0
  {
    forall i | 0 <= i < |images| ensures AllLevels(images[i]) && |images[i]| == |img| && errors[i] >= 0.0 {
      RecordAt(img, images, errors, i);
    }
  }

  /** A successful pass extends the record by exactly one image and one
      error. */
  lemma StepRecords(h: seq<nat>, n: int, tr: Trace, img: seq<int>, next: Trace)
    requires |h| == 256 && AllLevels(tr.slices) && AllLevels(tr.work) && |tr.work| > 0
    requires Recorded(tr, img) && Step(h, n, tr) == Ok(next)
    ensures Recorded(next, img) && |next.images| == |tr.images| + 1
  {
    var p := Pass(h, n, tr.slices, tr.work);
    StepOutcome(h, n, tr, p);
    var k := |tr.images|;
    assert next.images[..k] == tr.images && next.errors[..k] == tr.errors;
  }

  /** A run of t > 0 passes that succeeds starts with a successful pass. */
  lemma RunUnfold(h: seq<nat>, n: int, tr: Trace, t: nat)
    requires |h| == 256 && AllLevels(tr.slices) && AllLevels(tr.work) && |tr.work| > 0
    requires t > 0 && Run(h, n, tr, t).Ok?
    ensures Step(h, n, tr).Ok? && Run(h, n, tr, t) == Run(h, n, Step(h, n, tr).value, t - 1)
  {
  }

  /** A successful run of t passes, ending in the trace r, extends the
      record by exactly t images and t errors. */
  lemma RunRecords(h: seq<nat>, n: int, tr: Trace, img: seq<int>, t: nat, r: Trace)
    requires |h| == 256 && AllLevels(tr.slices) && AllLevels(tr.work) && |tr.work| > 0
    requires Recorded(tr, img) && Run(h, n, tr, t) == Ok(r)
    ensures Recorded(r, img) && |r.images| == |tr.images| + t
  {
    RunRecordsFrom(h, n, tr, img, t);
  }

  /** The same, by induction on the number of passes, about whatever trace
      a successful run ends in. */
  lemma {:induction false} RunRecordsFrom(h: seq<nat>, n: int, tr: Trace, img: seq<int>, t: nat)
    requires |h| == 256 && AllLevels(tr.slices) && AllLevels(tr.work) && |tr.work| > 0
    requires Recorded(tr, img) && Run(h, n, tr, t).Ok?
    ensures Recorded(Run(h, n, tr, t).value, img) && |Run(h, n, tr, t).value.images| == |tr.images| + t
    decreases t
  {
    if t > 0 {
      RunUnfold(h, n, tr, t);
      var next := Step(h, n, tr).value;
      StepRecords(h, n, tr, img, next);
      RunStep(h, n, tr, t, next);
      RunRecordsFrom(h, n, next, img, t - 1);
      assert Run(h, n, tr, t).value == Run(h, n, next, t - 1).value;
    }
  }

  /** After t > 0 passes from the channel, the working image the loop goes on
      with (`tmpMat`) is the t-th and last image recorded. */
  lemma WorkIsLastImage(img: seq<int>, nQuant: int, t: nat, r: Trace)
    requires |img| > 0 && AllLevels(img)
    requires t > 0 && Run(Histogram(img), nQuant, Start(img, nQuant), t) == Ok(r)
    ensures |r.images| == t && r.work == r.images[t - 1]
  {
    RunRecords(Histogram(img), nQuant, Start(img, nQuant), img, t, r);
  }

  /** Over a partition the representatives never decrease from one segment
      to the next. */
  lemma RepresentativesOrdered(h: seq<nat>, s: seq<int>, n: int)
    requires |h| == 256 && AllLevels(s) && WellFormed(s, n) && Representatives(h, s, n).Ok?
    ensures var q := Representatives(h, s, n).value;
            |q| == n && forall j, j' :: 0 <= j <= j' < n ==> q[j] <= q[j']
  {
    var q := Representatives(h, s, n).value;
    RepresentativesInSegments(h, s, n);
    forall j, j' | 0 <= j <= j' < n ensures q[j] <= q[j'] {
      if j < j' {
        assert q[j] < s[j + 1] <= s[j'] <= q[j'];
      }
    }
  }

  /** A pass that succeeds on a partition leaves a partition. */
  lemma StepKeepsPartition(h: seq<nat>, n: int, tr: Trace)
    requires |h| == 256 && AllLevels(tr.slices) && AllLevels(tr.work) && |tr.work| > 0
    requires WellFormed(tr.slices, n) && Step(h, n, tr).Ok?
    ensures WellFormed(Step(h, n, tr).value.slices, n)
  {
    var q := Representatives(h, tr.slices, n).value;
    RepresentativesInSegments(h, tr.slices, n);
    assert Pass(h, n, tr.slices, tr.work).value.0 == Midpoints(q, n);
    RepresentativesOrdered(h, tr.slices, n);
    MidpointsPartition(q, n);
  }

  /** Starting from a partition, the boundaries of every pass are a partition
      of the levels into n segments: within 0..255 and non-decreasing. */
  lemma {:induction false} RunKeepsPartition(h: seq<nat>, n: int, tr: Trace, t: nat)
    requires |h| == 256 && AllLevels(tr.slices) && AllLevels(tr.work) && |tr.work| > 0
    requires WellFormed(tr.slices, n) && Run(h, n, tr, t).Ok?
    ensures WellFormed(Run(h, n, tr, t).value.slices, n)
    decreases t
  {
    if t > 0 {
      RunUnfold(h, n, tr, t);
      var next := Step(h, n, tr).value;
      StepKeepsPartition(h, n, tr);
      RunStep(h, n, tr, t, next);
      RunKeepsPartition(h, n, next, t - 1);
    }
  }

  /** Total of the segment masses over the first k segments. */
  function SegmentMasses(h: seq<nat>, s: seq<int>, k: int): nat
    requires |h| == 256 && AllLevels(s) && k < |s|
    decreases k
  {
    if k <= 0 then 0 else SegmentMasses(h, s, k - 1) + Mass(h, s[k - 1], s[k])
  }

  lemma {:induction false} MassIsSum(h: seq<nat>, i: int)
    requires |h| == 256 && 0 <= i <= 256
    ensures Mass(h, 0, i) == Sum(h[..i])
  {
    if i > 0 {
      MassIsSum(h, i - 1);
      assert h[..i][..i - 1] == h[..i - 1];
    }
  }

  /** The segments of a partition count every pixel exactly once except
      those in the top bin (level 255), which no segment contains. */
  lemma SegmentMassTotal(h: seq<nat>, s: seq<int>, n: int)
    requires |h| == 256 && AllLevels(s) && WellFormed(s, n)
    ensures SegmentMasses(h, s, n) + h[255] == Sum(h)
  {
    forall k | 0 <= k <= n ensures SegmentMasses(h, s, k) == Mass(h, 0, s[k]) {
      SegmentMassesPrefix(h, s, n, k);
    }
    MassIsSum(h, 256);
    assert h[..256] == h;
  }

  lemma {:induction false} SegmentMassesPrefix(h: seq<nat>, s: seq<int>, n: int, k: int)
    requires |h| == 256 && AllLevels(s) && WellFormed(s, n) && 0 <= k <= n
    ensures SegmentMasses(h, s, k) == Mass(h, 0, s[k])
  {
    if k > 0 {
      SegmentMassesPrefix(h, s, n, k - 1);
      MassSplit(h, 0, s[k - 1], s[k]);
    }
  }

  /** Every image of a list rescaled to [0,1]. */
  function Units(ls: seq<seq<int>>): (u: seq<seq<real>>)
    requires forall i :: 0 <= i < |ls| ==> AllLevels(ls[i])
    ensures |u| == |ls|
    ensures forall i :: 0 <= i < |ls| ==> u[i] == ToUnit(ls[i])
  {
    if ls == [] then [] else Units(ls[..|ls| - 1]) + [ToUnit(ls[|ls| - 1])]
  }

  /** The two lists `quantizeImage` returns: the image of every pass rescaled
      to [0,1], and the mean absolute change of every pass. */
  datatype Quantized = Quantized(images: seq<seq<real>>, errors: seq<real>)

  /** The lists returned for a record of passes from img: every image rescaled
      to [0,1], and the errors as they are. */
  function Outputs(img: seq<int>, images: seq<seq<int>>, errors: seq<real>): (o: Quantized)
    requires Records(img, images, errors)
    ensures |o.images| == |o.errors| == |images|
    ensures forall i :: 0 <= i < |o.images| ==>
              |o.images[i]| == |img| && forall p :: 0 <= p < |img| ==> 0.0 <= o.images[i][p] <= 1.0
    ensures forall i :: 0 <= i < |o.errors| ==> o.errors[i] >= 0.0
  {
    RecordsEach(img, images, errors);
    Quantized(Units(images), errors)
  }

  /** The loop state before the first pass: the starting boundaries read off
      the channel's running histogram, the channel itself as working image,
      and nothing recorded yet. */
  function Start(img: seq<int>, nQuant: int): (tr: Trace)
    requires |img| > 0 && AllLevels(img)
    ensures AllLevels(tr.slices) && 1 <= |tr.slices| && tr.work == img && Recorded(tr, img)
  {
    HistogramCumulative(img);
    InitialShape(CumSum(Histogram(img)), nQuant);
    Trace(Initial(CumSum(Histogram(img)), nQuant), img, [], [])
  }

  /** The whole quantization of a channel: histogram, starting boundaries,
      then max(nIter, 0) passes. */
  function Quantize(img: seq<int>, nQuant: int, nIter: int): (r: Result<Quantized>)
    requires |img| > 0 && AllLevels(img)
    ensures r.Ok? ==> |r.value.images| == |r.value.errors| == (if nIter > 0 then nIter else 0)
    ensures r.Ok? ==> forall i :: 0 <= i < |r.value.images| ==>
                        |r.value.images[i]| == |img| &&
                        forall p :: 0 <= p < |img| ==> 0.0 <= r.value.images[i][p] <= 1.0
    ensures r.Ok? ==> forall i :: 0 <= i < |r.value.errors| ==> r.value.errors[i] >= 0.0
  {
    var h, start := Histogram(img), Start(img, nQuant);
    var passes := if nIter > 0 then nIter else 0;
    match Run(h, nQuant, start, passes)
    case Err(e) => Err(e)
    case Ok(tr) =>
      RunRecords(h, nQuant, start, img, passes, tr);
      Ok(Outputs(img, tr.images, tr.errors))
  }

  /** A run whose first pass cannot compute its representatives stops with
      that pass's exception. */
  lemma RunFailsAtOnce(h: seq<nat>, n: int, tr: Trace, t: nat)
    requires |h| == 256 && AllLevels(tr.slices) && AllLevels(tr.work) && |tr.work| > 0
    requires t > 0 && Representatives(h, tr.slices, n).Err?
    ensures Run(h, n, tr, t) == Err(Representatives(h, tr.slices, n).error)
  {
    StepOutcome(h, n, tr, Pass(h, n, tr.slices, tr.work));
  }

  /** When the starting scan finds fewer than nQuant boundaries, the first
      pass reads past the end of `slices` and the run fails: with an
      IndexError at the first missing boundary unless an earlier segment is
      already empty. */
  lemma QuantizeTooFewBoundaries(img: seq<int>, nQuant: int, nIter: int)
    requires |img| > 0 && AllLevels(img) && nIter >= 1
    requires |Start(img, nQuant).slices| <= nQuant
    ensures Quantize(img, nQuant, nIter).Err?
    ensures var h, s := Histogram(img), Start(img, nQuant).slices;
            (forall j :: 0 <= j < |s| - 1 ==> Mass(h, s[j], s[j + 1]) > 0) ==>
              Quantize(img, nQuant, nIter) == Err(MissingBoundary(|s| - 1))
  {
    var h, st := Histogram(img), Start(img, nQuant);
    RepresentativesTooFew(h, st.slices, nQuant);
    RunFailsAtOnce(h, nQuant, st, nIter);
  }

  /** More than a share 1/nQuant of the pixels in the lowest bin leaves the
      first segment without a lower boundary (IndexError); exactly that share
      makes 0 a boundary twice, so the first segment is empty or a boundary
      is missing. Either way the first pass raises. */
  lemma QuantizeCrowdedFloor(img: seq<int>, nQuant: int, nIter: int)
    requires |img| > 0 && AllLevels(img) && nQuant >= 2 && nIter >= 1
    requires Histogram(img)[0] * nQuant >= |img|
    ensures Quantize(img, nQuant, nIter).Err?
    ensures Histogram(img)[0] * nQuant > |img| ==> Quantize(img, nQuant, nIter) == Err(MissingBoundary(0))
  {
    var h := Histogram(img);
    var c := CumSum(h);
    HistogramCumulative(img);
    var s := Start(img, nQuant).slices;
    if h[0] * nQuant > |img| {
      CrowdedFloorInitial(c, nQuant);
      QuantizeTooFewBoundaries(img, nQuant, nIter);
    } else {
      ExactFloorInitial(c, nQuant);
      if s == [0, 255] {
        QuantizeTooFewBoundaries(img, nQuant, nIter);
      } else {
        assert SegmentMean(h, s, 0) == Err(EmptySegment(0));
        RepresentativesStop(h, s, 0, nQuant);
        RunFailsAtOnce(h, nQuant, Start(img, nQuant), nIter);
      }
    }
  }

  /** The truncated mean level of the pixels below the top bin. */
  function BelowTopMean(h: seq<nat>): (q: int)
    requires |h| == 256 && Mass(h, 0, 255) > 0
    ensures 0 <= q < 255
  {
    MeanInRange(h, 0, 255);
    Moment(h, 0, 255) / Mass(h, 0, 255)
  }

  /** With the boundaries [0, 255] the single representative is the
      truncated mean of the pixels below the top bin, if there is one. */
  lemma OneLevelMean(h: seq<nat>)
    requires |h| == 256
    ensures Mass(h, 0, 255) == 0 ==> Representatives(h, [0, 255], 1) == Err(EmptySegment(0))
    ensures Mass(h, 0, 255) > 0 ==>
              Representatives(h, [0, 255], 1) == Ok([BelowTopMean(h)])
  {
    assert Representatives(h, [0, 255], 0) == Ok([]);
    if Mass(h, 0, 255) > 0 {
      var q := BelowTopMean(h);
      assert [] + [q] == [q];
    }
  }

  /** A single representative leaves the boundaries at [0, 255]. */
  lemma OneLevelMidpoints(q: int)
    requires IsLevel(q)
    ensures Midpoints([q], 1) == [0, 255]
  {
    assert Mids([q], 1) == [];
    assert PyInsert([], 0, 0) == [0];
  }

  /** With a single segment every pixel above level 0 takes the
      representative and pixels at 0 stay 0. */
  lemma OneLevelPaint(work: seq<int>, q: int)
    ensures forall x :: 0 <= x < |work| ==>
              Painted(work, [0, 255], [q], 1)[x] == if work[x] > 0 then q else 0
  {
    forall x | 0 <= x < |work| ensures Painted(work, [0, 255], [q], 1)[x] == if work[x] > 0 then q else 0 {
      assert Paint(work[x], [0, 255], [q], 0) == 0;
    }
  }

  /** The image a single-level pass with representative q produces: every
      pixel above level 0 takes q, and pixels at 0 stay 0. */
  function Flattened(work: seq<int>, q: int): (w: seq<int>)
    requires IsLevel(q)
    ensures |w| == |work| && AllLevels(w)
  {
    seq(|work|, x => if 0 <= x < |work| && work[x] > 0 then q else 0)
  }

  /** Flattening twice is flattening once. */
  lemma FlattenedIdempotent(work: seq<int>, q: int)
    requires IsLevel(q)
    ensures Flattened(Flattened(work, q), q) == Flattened(work, q)
  {
  }

  /** A single-level pass over the boundaries [0, 255] keeps those boundaries
      and flattens the image; it raises only when no pixel lies below the top
      bin. */
  lemma OneLevelPass(h: seq<nat>, work: seq<int>)
    requires |h| == 256 && AllLevels(work)
    ensures Mass(h, 0, 255) == 0 ==> Pass(h, 1, [0, 255], work) == Err(EmptySegment(0))
    ensures Mass(h, 0, 255) > 0 ==> Pass(h, 1, [0, 255], work) == Ok(([0, 255], Flattened(work, BelowTopMean(h))))
  {
    OneLevelMean(h);
    if Mass(h, 0, 255) > 0 {
      var q := BelowTopMean(h);
      OneLevelMidpoints(q);
      OneLevelPaint(work, q);
      assert Painted(work, [0, 255], [q], 1) == Flattened(work, BelowTopMean(h));
      assert Pass(h, 1, [0, 255], work) == Ok((Midpoints([q], 1), Painted(work, [0, 255], [q], 1)));
    }
  }

  /** A successful pass hands its trace to the remaining passes. */
  lemma RunStep(h: seq<nat>, n: int, tr: Trace, t: nat, next: Trace)
    requires |h| == 256 && AllLevels(tr.slices) && AllLevels(tr.work) && |tr.work| > 0
    requires t > 0 && Step(h, n, tr) == Ok(next)
    ensures AllLevels(next.slices) && AllLevels(next.work) && |next.work| > 0
    ensures Run(h, n, tr, t) == Run(h, n, next, t - 1)
  {
  }

  /** t copies of x. */
  function Copies<T>(x: T, t: nat): (r: seq<T>)
    ensures |r| == t && forall i :: 0 <= i < t ==> r[i] == x
  {
    if t == 0 then [] else [x] + Copies(x, t - 1)
  }

  /** Nothing recorded before: the record is what was appended. Proved on
      its own, since in the proof of `OneLevelFromStart` the solver does not
      find it within budget. */
  lemma EmptyPrefix<T>(s: seq<T>)
    ensures [] + s == s
  {
  }

  /** One single-level pass from the boundaries [0, 255] keeps them, and
      records the flattened image and its distance from the working image. */
  lemma OneLevelStep(h: seq<nat>, tr: Trace)
    requires |h| == 256 && tr.slices == [0, 255] && AllLevels(tr.work) && |tr.work| > 0
    requires Mass(h, 0, 255) > 0
    ensures var w := Flattened(tr.work, BelowTopMean(h));
            Step(h, 1, tr) == Ok(Trace([0, 255], w, tr.images + [w], tr.errors + [MeanAbsError(tr.work, w)]))
  {
    OneLevelPass(h, tr.work);
    StepOutcome(h, 1, tr, Pass(h, 1, tr.slices, tr.work));
  }

  /** With a single level the starting boundaries are [0, 255], and some
      pixel (the darkest one) lies below the top bin, so the single segment
      [0, 255) is never empty. */
  lemma OneLevelStart(img: seq<int>)
    requires |img| > 0 && AllLevels(img)
    ensures Start(img, 1).slices == [0, 255]
    ensures Mass(Histogram(img), 0, 255) > 0
  {
    var h := Histogram(img);
    HistogramCumulative(img);
    InitialOneLevel(CumSum(h));
    BottomBinOccupied(img);
    var b := BinOf(Min(img), Min(img), Max(img));
    MassSplit(h, 0, b, 255);
    MassSplit(h, b, b + 1, 255);
    assert Mass(h, b, b + 1) == h[b];
  }

  /** A single-level run of t >= 1 passes from [0, 255] succeeds whenever some
      pixel lies below the top bin: the first pass flattens the image, and
      every later pass repeats the flattened image with error 0, since
      flattening is idempotent. */
  lemma {:induction false} OneLevelRun(h: seq<nat>, tr: Trace, t: nat)
    requires |h| == 256 && tr.slices == [0, 255] && AllLevels(tr.work) && |tr.work| > 0
    requires Mass(h, 0, 255) > 0 && t >= 1
    ensures var w := Flattened(tr.work, BelowTopMean(h));
            Run(h, 1, tr, t) == Ok(Trace([0, 255], w, tr.images + Copies(w, t),
                                         tr.errors + [MeanAbsError(tr.work, w)] + Copies(0.0, t - 1)))
    decreases t
  {
    var w := Flattened(tr.work, BelowTopMean(h));
    OneLevelStep(h, tr);
    var next := Trace([0, 255], w, tr.images + [w], tr.errors + [MeanAbsError(tr.work, w)]);
    RunStep(h, 1, tr, t, next);
    assert tr.images + [w] + Copies(w, t - 1) == tr.images + Copies(w, t);
    if t == 1 {
      assert tr.images + [w] + [] == tr.images + [w];
      assert next.errors + [] == next.errors;
    } else {
      OneLevelRun(h, next, t - 1);
      FlattenedIdempotent(tr.work, BelowTopMean(h));
      assert MeanAbsError(w, w) == 0.0;
      assert next.errors + [0.0] + Copies(0.0, t - 2) == next.errors + Copies(0.0, t - 1);
    }
  }

  /** A run that succeeds with the trace tr makes `quantizeImage` return
      its images rescaled to [0,1] and its errors. */
  lemma QuantizeOutcome(img: seq<int>, nQuant: int, nIter: int, tr: Trace)
    requires |img| > 0 && AllLevels(img) && nIter >= 0
    requires Run(Histogram(img), nQuant, Start(img, nQuant), nIter) == Ok(tr)
    ensures Records(img, tr.images, tr.errors)
    ensures Quantize(img, nQuant, nIter) == Ok(Outputs(img, tr.images, tr.errors))
  {
    RunRecords(Histogram(img), nQuant, Start(img, nQuant), img, nIter, tr);
  }

  /** Rescaling t copies of an image gives t copies of the rescaled image. */
  lemma UnitsCopies(w: seq<int>, t: nat)
    requires AllLevels(w)
    ensures Units(Copies(w, t)) == Copies(ToUnit(w), t)
  {
  }

  /** Quantizing to a single level never raises: every image it returns is
      the flattened channel, rescaled to [0,1]; the first error is the
      distance from the channel to it, and every later one is 0. */
  lemma QuantizeOneLevel(img: seq<int>, nIter: int)
    requires |img| > 0 && AllLevels(img) && nIter >= 1
    ensures Mass(Histogram(img), 0, 255) > 0
    ensures var w := Flattened(img, BelowTopMean(Histogram(img)));
            Quantize(img, 1, nIter) == Ok(Quantized(Copies(ToUnit(w), nIter),
                                                    [MeanAbsError(img, w)] + Copies(0.0, nIter - 1)))
  {
    OneLevelStart(img);
    var w := Flattened(img, BelowTopMean(Histogram(img)));
    var tr := Trace([0, 255], w, Copies(w, nIter), [MeanAbsError(img, w)] + Copies(0.0, nIter - 1));
    OneLevelFromStart(img, nIter);
    QuantizeOutcome(img, 1, nIter, tr);
    UnitsCopies(w, nIter);
  }

  /** The single-level run from the starting trace of a channel. */
  lemma OneLevelFromStart(img: seq<int>, nIter: int)
    requires |img| > 0 && AllLevels(img) && nIter >= 1
    ensures Mass(Histogram(img), 0, 255) > 0
    ensures var w := Flattened(img, BelowTopMean(Histogram(img)));
            Run(Histogram(img), 1, Start(img, 1), nIter)
              == Ok(Trace([0, 255], w, Copies(w, nIter), [MeanAbsError(img, w)] + Copies(0.0, nIter - 1)))
  {
    var h, start := Histogram(img), Start(img, 1);
    OneLevelStart(img);
    var w := Flattened(img, BelowTopMean(h));
    OneLevelRun(h, start, nIter);
    EmptyPrefix(Copies(w, nIter));
    EmptyPrefix([MeanAbsError(img, w)]);
  }

  /** The quantization loop (lines 156-177 of ex1_utils.py): exactly max(nIter, 0) passes
      from the boundaries s0, each appending one image and one error, or the
      exception of the first pass that fails. */
  method Iterate(histOrg: seq<nat>, nQuant: int, s0: seq<int>, imOrig: seq<int>, nIter: int)
    returns (r: Result<Trace>)
    requires |histOrg| == 256 && AllLevels(s0) && AllLevels(imOrig) && |imOrig| > 0
    ensures r == Run(histOrg, nQuant, Trace(s0, imOrig, [], []), if nIter > 0 then nIter else 0)
  {
    var slices, tmpMat := s0, imOrig;
    var iterImages: seq<seq<int>> := [];
    var mse: seq<real> := [];
    var passes := if nIter > 0 then nIter else 0;  // `range(nIter)` is empty for nIter <= 0
    ghost var start := Trace(s0, imOrig, [], []);
    for i := 0 to passes
      invariant AllLevels(slices) && AllLevels(tmpMat) && |tmpMat| == |imOrig|
      invariant Run(histOrg, nQuant, Trace(slices, tmpMat, iterImages, mse), passes - i)
                == Run(histOrg, nQuant, start, passes)
    {
      var pass := RunPass(histOrg, slices, tmpMat, nQuant);
      RunOutcome(histOrg, nQuant, Trace(slices, tmpMat, iterImages, mse), passes - i, pass);
      if pass.Err? {
        return Err(pass.error);
      }
      var tempImg := pass.value.1;
      slices := pass.value.0;
      mse := mse + [MeanAbsError(tmpMat, tempImg)];
      tmpMat := tempImg;
      iterImages := iterImages + [tempImg];
    }
    r := Ok(Trace(slices, tmpMat, iterImages, mse));
  }

  /** Quantizes a channel (lines 127-183 of ex1_utils.py, for one channel): the histogram, the
      starting boundaries, the loop, and every image rescaled to [0,1]. */
  method QuantizeImage(imOrig: seq<int>, nQuant: int, nIter: int) returns (r: Result<Quantized>)
    requires |imOrig| > 0 && AllLevels(imOrig)
    ensures r == Quantize(imOrig, nQuant, nIter)
  {
    var histOrg := Histogram(imOrig);
    var cumSum := CumSum(histOrg);
    HistogramCumulative(imOrig);
    var slices := InitialSlices(cumSum, nQuant);
    InitialShape(cumSum, nQuant);
    var run := Iterate(histOrg, nQuant, slices, imOrig, nIter);
    match run
    case Err(e) =>
      r := Err(e);
    case Ok(tr) =>
      RunRecords(histOrg, nQuant, Trace(slices, imOrig, [], []), imOrig, if nIter > 0 then nIter else 0, tr);
      r := Ok(Outputs(imOrig, tr.images, tr.errors));
  }
}
