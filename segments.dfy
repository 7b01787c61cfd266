/** The representative level `Qi[j]` of each segment of the quantizer's
    partition: the histogram-weighted mean level of the segment, truncated,
    always over the histogram of the original channel. */
module Segments {
  import opened Histograms

  /** Why a quantization run stops with an exception. */
  datatype QuantError =
    | MissingBoundary(segment: int)  // `slices[j + 1]` indexes past the end of the list
    | EmptySegment(segment: int)     // a segment holding no pixel: 0/0, then `int(nan)`

  datatype Result<T> = Ok(value: T) | Err(error: QuantError)

  /** `histOrg[lo:hi].sum()`: the pixels in bins lo..hi-1. */
  function Mass(h: seq<nat>, lo: int, hi: int): nat
    requires |h| == 256 && 0 <= lo && hi <= 256
    decreases hi - lo
  {
    if lo >= hi then 0 else Mass(h, lo, hi - 1) + h[hi - 1]
  }

  /** `(np.array(range(lo, hi)) * histOrg[lo:hi]).sum()`: the levels of the
      pixels in bins lo..hi-1, added up. */
  function Moment(h: seq<nat>, lo: int, hi: int): nat
    requires |h| == 256 && 0 <= lo && hi <= 256
    decreases hi - lo
  {
    if lo >= hi then 0 else Moment(h, lo, hi - 1) + (hi - 1) * h[hi - 1]
  }

  /** Masses of adjacent ranges add up. */
  lemma {:induction false} MassSplit(h: seq<nat>, lo: int, mid: int, hi: int)
    requires |h| == 256 && 0 <= lo <= mid <= hi <= 256
    ensures Mass(h, lo, hi) == Mass(h, lo, mid) + Mass(h, mid, hi)
    decreases hi - mid
  {
    if mid < hi {
      MassSplit(h, lo, mid, hi - 1);
    }
  }

  /** The weighted sum lies between the lowest and the highest level of the
      range times the mass. */
  lemma {:induction false} MomentBounds(h: seq<nat>, lo: int, hi: int)
    requires |h| == 256 && 0 <= lo <= hi <= 256
    ensures lo * Mass(h, lo, hi) <= Moment(h, lo, hi)
    ensures lo < hi ==> Moment(h, lo, hi) <= (hi - 1) * Mass(h, lo, hi)
    decreases hi - lo
  {
    if lo < hi {
      var t := hi - 1;
      MomentBounds(h, lo, t);
      var m, w, x := Mass(h, lo, t), Moment(h, lo, t), h[t];
      assert Mass(h, lo, hi) == m + x && Moment(h, lo, hi) == w + t * x;
      MulMono(lo, t, x);
      Distrib(lo, m, x);
      Distrib(t, m, x);
      if lo < t {
        MulMono(t - 1, t, m);
      } else {
        MulMono(0, t, m);
      }
    }
  }

  /** Distributivity, proved on its own: stated inline, the products make
      the step above run past the solver's budget. */
  lemma Distrib(a: int, b: int, c: int)
    ensures a * (b + c) == a * b + a * c
  {
  }

  /** Integer division by a positive m keeps a value that lies between a * m
      and b * m between a and b. */
  lemma FloorBetween(w: int, m: int, a: int, b: int)
    requires m > 0 && a * m <= w <= b * m
    ensures a <= w / m <= b
  {
    var q, r := w / m, w % m;
    assert w == q * m + r && 0 <= r < m;
    assert (a - 1) * m == a * m - m;
    MulCancel(a - 1, q, m);
    MulCancel(q, b + 1, m);
  }

  /** The truncated mean of a non-empty range is one of its levels. */
  lemma MeanInRange(h: seq<nat>, lo: int, hi: int)
    requires |h| == 256 && 0 <= lo <= hi <= 256 && Mass(h, lo, hi) > 0
    ensures lo <= Moment(h, lo, hi) / Mass(h, lo, hi) < hi
  {
    MomentBounds(h, lo, hi);
    FloorBetween(Moment(h, lo, hi), Mass(h, lo, hi), lo, hi - 1);
  }

  /** `Qi[j]`, or the exception raised while computing it: the segment is
      [s[j], s[j+1]). */
  function SegmentMean(h: seq<nat>, s: seq<int>, j: int): (r: Result<int>)
    requires |h| == 256 && AllLevels(s) && 0 <= j
    ensures r.Ok? <==> j + 1 < |s| && Mass(h, s[j], s[j + 1]) > 0
    ensures r.Err? && j + 1 >= |s| ==> r.error == MissingBoundary(j)
    ensures r.Err? && j + 1 < |s| ==> r.error == EmptySegment(j)
    ensures r.Ok? ==> s[j] <= r.value < s[j + 1]
  {
    if j + 1 >= |s| then Err(MissingBoundary(j))
    else
      var lo, hi := s[j], s[j + 1];
      var m := Mass(h, lo, hi);
      if m == 0 then Err(EmptySegment(j))
      else
        MeanInRange(h, lo, hi);
        Ok(Moment(h, lo, hi) / m)
  }

  /** A segment's representative is its mean level rounded down: the
      greatest level whose multiple of the segment's mass does not exceed
      the segment's weighted sum. */
  lemma SegmentMeanFloor(h: seq<nat>, s: seq<int>, j: int)
    requires |h| == 256 && AllLevels(s) && 0 <= j && SegmentMean(h, s, j).Ok?
    ensures var q, m, w := SegmentMean(h, s, j).value, Mass(h, s[j], s[j + 1]), Moment(h, s[j], s[j + 1]);
            q * m <= w < (q + 1) * m
  {
    var m, w := Mass(h, s[j], s[j + 1]), Moment(h, s[j], s[j + 1]);
    assert w == (w / m) * m + w % m;
  }

  /** The list `Qi` after its first n segments (none when n <= 0), or the
      exception raised by the first segment that fails. */
  function Representatives(h: seq<nat>, s: seq<int>, n: int): (r: Result<seq<int>>)
    requires |h| == 256 && AllLevels(s)
    decreases n
    ensures r.Ok? ==> |r.value| == (if n > 0 then n else 0) && (n > 0 ==> n < |s|)
  {
    if n <= 0 then Ok([])
    else
      match Representatives(h, s, n - 1)
      case Err(e) => Err(e)
      case Ok(q) =>
        match SegmentMean(h, s, n - 1)
        case Err(e) => Err(e)
        case Ok(m) => Ok(q + [m])
  }

  /** `Qi` exists exactly when every one of the first n segments has a mean,
      and then holds those means in order; otherwise the exception is that of
      the first segment that fails. */
  lemma {:induction false} RepresentativesSpec(h: seq<nat>, s: seq<int>, n: int)
    requires |h| == 256 && AllLevels(s)
    decreases n
    ensures var r := Representatives(h, s, n);
            && (r.Ok? <==> forall j :: 0 <= j < n ==> SegmentMean(h, s, j).Ok?)
            && (r.Ok? ==> forall j :: 0 <= j < n ==> SegmentMean(h, s, j) == Ok(r.value[j]))
            && (r.Err? ==> exists j :: 0 <= j < n && SegmentMean(h, s, j) == Err(r.error)
                                     && forall i :: 0 <= i < j ==> SegmentMean(h, s, i).Ok?)
  {
    if n > 0 {
      RepresentativesSpec(h, s, n - 1);
      var prev := Representatives(h, s, n - 1);
      if prev.Ok? && SegmentMean(h, s, n - 1).Ok? {
        assert Representatives(h, s, n).value == prev.value + [SegmentMean(h, s, n - 1).value];
      }
    }
  }

  /** The first failing segment decides the outcome of every longer list. */
  lemma {:induction false} RepresentativesStop(h: seq<nat>, s: seq<int>, j: int, n: int)
    requires |h| == 256 && AllLevels(s) && 0 <= j < n
    requires Representatives(h, s, j).Ok? && SegmentMean(h, s, j).Err?
    ensures Representatives(h, s, n) == Err(SegmentMean(h, s, j).error)
    decreases n
  {
    if j < n - 1 {
      RepresentativesStop(h, s, j, n - 1);
    }
  }

  /** With fewer than n + 1 boundaries some segment has no upper boundary,
      so `Qi` cannot be completed: the exception is the IndexError at the first
      missing boundary unless an earlier segment is already empty. */
  lemma RepresentativesTooFew(h: seq<nat>, s: seq<int>, n: int)
    requires |h| == 256 && AllLevels(s) && 1 <= |s| <= n
    ensures Representatives(h, s, n).Err?
    ensures (forall j :: 0 <= j < |s| - 1 ==> Mass(h, s[j], s[j + 1]) > 0) ==>
              Representatives(h, s, n) == Err(MissingBoundary(|s| - 1))
  {
    if forall j :: 0 <= j < |s| - 1 ==> Mass(h, s[j], s[j + 1]) > 0 {
      RepresentativesSpec(h, s, |s| - 1);
      RepresentativesStop(h, s, |s| - 1, n);
    }
  }

  /** Computes `Qi` segment by segment (lines 158-163 of ex1_utils.py), stopping at the first
      segment whose upper boundary is missing or whose mass is zero. */
  method SegmentMeans(histOrg: seq<nat>, slices: seq<int>, nQuant: int) returns (r: Result<seq<int>>)
    requires |histOrg| == 256 && AllLevels(slices)
    ensures r == Representatives(histOrg, slices, nQuant)
  {
    var qi: seq<int> := [];
    var j := 0;
    while j < nQuant
      invariant 0 <= j <= (if nQuant > 0 then nQuant else 0)
      invariant Representatives(histOrg, slices, j) == Ok(qi)
    {
      if j + 1 >= |slices| {
        RepresentativesStop(histOrg, slices, j, nQuant);
        return Err(MissingBoundary(j));
      }
      var lo, hi := slices[j], slices[j + 1];
      var mass := Mass(histOrg, lo, hi);
      if mass == 0 {
        RepresentativesStop(histOrg, slices, j, nQuant);
        return Err(EmptySegment(j));
      }
      qi := qi + [Moment(histOrg, lo, hi) / mass];
      j := j + 1;
    }
    r := Ok(qi);
  }
}
