/** Histogram equalization of one intensity channel: a lookup table built
    from the running histogram, then every pixel rewritten through it. */
module Equalizer {
  import opened Histograms

  /** The ceiling of a / b: the least r with r * b >= a. */
  function CeilDiv(a: nat, b: nat): (r: nat)
    requires b > 0
    ensures r * b >= a
    ensures (r - 1) * b < a
  {
    var r := (a + b - 1) / b;
    assert r * b + (a + b - 1) % b == a + b - 1;
    r
  }

  /** The equalization table `ceil(cumSum / cumSum.max() * 255)`, computed on
      the exact ratio: entry i is the least level L with L * total >= C[i] * 255. */
  function Lut(c: seq<nat>): (lut: seq<int>)
    requires |c| == 256 && c[255] > 0
    ensures |lut| == 256
    ensures forall i :: 0 <= i < 256 ==>
              lut[i] * c[255] >= c[i] * 255 && (lut[i] - 1) * c[255] < c[i] * 255
  {
    seq(256, i requires 0 <= i < 256 => CeilDiv(c[i] * 255, c[255]))
  }

  /** Every entry is a level, the top entry is 255, and an entry is 0 exactly
      when no pixel lies at or below its bin. */
  lemma LutRange(c: seq<nat>)
    requires IsCumulative(c)
    ensures forall i :: 0 <= i < 256 ==> IsLevel(Lut(c)[i])
    ensures Lut(c)[255] == 255
    ensures forall i :: 0 <= i < 256 ==> (Lut(c)[i] == 0 <==> c[i] == 0)
  {
    var lut, n := Lut(c), c[255];
    forall i | 0 <= i < 256 ensures 0 <= lut[i] <= 255 && (lut[i] == 0 <==> c[i] == 0) {
      MulMono(c[i], n, 255);
      MulCancel(lut[i] - 1, 255, n);
      MulCancel(-1, lut[i], n);
      if c[i] == 0 {
        MulCancel(lut[i] - 1, 0, n);
      }
    }
    MulCancel(254, lut[255], n);
  }

  /** The table never decreases: a brighter level is never mapped below a
      darker one. */
  lemma LutMonotone(c: seq<nat>, i: int, j: int)
    requires IsCumulative(c) && 0 <= i <= j < 256
    ensures Lut(c)[i] <= Lut(c)[j]
  {
    var lut, n := Lut(c), c[255];
    MulMono(c[i], c[j], 255);
    MulCancel(lut[i] - 1, lut[j], n);
  }

  /** The table `hsitogramEqualize` builds for a channel. */
  function EqualizationLut(img: seq<int>): (lut: seq<int>)
    requires |img| > 0
    ensures |lut| == 256
    ensures forall i :: 0 <= i < 256 ==> IsLevel(lut[i])
  {
    HistogramCumulative(img);
    LutRange(CumSum(Histogram(img)));
    Lut(CumSum(Histogram(img)))
  }

  /** Every pixel of the channel replaced by the table entry of its level. */
  function Equalized(img: seq<int>): (eq: seq<int>)
    requires |img| > 0 && AllLevels(img)
    ensures |eq| == |img| && AllLevels(eq)
  {
    var lut := EqualizationLut(img);
    seq(|img|, p requires 0 <= p < |img| => lut[img[p]])
  }

  /** Equalization keeps the order of pixel intensities, and level 255 stays
      at 255. */
  lemma EqualizedOrder(img: seq<int>, p: int, q: int)
    requires |img| > 0 && AllLevels(img)
    requires 0 <= p < |img| && 0 <= q < |img|
    ensures img[p] <= img[q] ==> Equalized(img)[p] <= Equalized(img)[q]
    ensures img[p] == 255 ==> Equalized(img)[p] == 255
  {
    HistogramCumulative(img);
    var c := CumSum(Histogram(img));
    LutRange(c);
    if img[p] <= img[q] {
      LutMonotone(c, img[p], img[q]);
    }
  }

  /** Rewrites every pixel through the table, level by level, into a copy of
      the channel. The mask of each pass is taken from the unmodified input,
      so every pixel is rewritten exactly once, by its own level's entry. */
  method ApplyLut(tmp: seq<int>, lut: seq<int>) returns (eq: seq<int>)
    requires AllLevels(tmp) && |lut| == 256
    ensures |eq| == |tmp|
    ensures forall p :: 0 <= p < |tmp| ==> eq[p] == lut[tmp[p]]
  {
    var buf := new int[|tmp|](p requires 0 <= p < |tmp| => tmp[p]);
    for i := 0 to 256
      invariant forall p :: 0 <= p < |tmp| ==>
                  buf[p] == if tmp[p] < i then lut[tmp[p]] else tmp[p]
    {
      for p := 0 to |tmp|
        invariant forall x :: 0 <= x < |tmp| ==>
                    buf[x] == if tmp[x] < i || (x < p && tmp[x] == i) then lut[tmp[x]] else tmp[x]
      {
        if tmp[p] == i {
          buf[p] := lut[i];
        }
      }
    }
    eq := buf[..];
  }

  /** Equalizes a channel and returns it rescaled to [0,1], with the
      histograms of the channel before and after. */
  method HistogramEqualize(img: seq<int>) returns (imEq: seq<real>, histOrg: seq<nat>, histEq: seq<nat>)
    requires |img| > 0 && AllLevels(img)
    ensures histOrg == Histogram(img) && Sum(histOrg) == |img|
    ensures histEq == Histogram(Equalized(img)) && Sum(histEq) == |img|
    ensures imEq == ToUnit(Equalized(img))
    ensures |imEq| == |img| && forall p :: 0 <= p < |img| ==> 0.0 <= imEq[p] <= 1.0
  {
    histOrg := Histogram(img);
    var cumSum := CumSum(histOrg);
    HistogramCumulative(img);
    var lut := Lut(cumSum);
    var eq := ApplyLut(img, lut);
    assert eq == Equalized(img);
    histEq := Histogram(eq);
    imEq := ToUnit(eq);
  }
}
