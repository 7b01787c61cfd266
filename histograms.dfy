/** Intensity statistics shared by both point operations: the 256-bin
    histogram of one intensity channel and its running sum.

    A channel is a flattened image whose pixels are whole levels 0..255,
    which is what min-max scaling to [0,255] followed by a cast to 8 bits
    leaves behind. */
module Histograms {

  /** A whole 8-bit intensity level. */
  predicate IsLevel(v: int) {
    0 <= v < 256
  }

  /** Every entry is a level: the pixels of a flattened intensity channel,
      or a list of segment boundaries. */
  predicate AllLevels(img: seq<int>) {
    forall p :: 0 <= p < |img| ==> IsLevel(img[p])
  }

  /** Total of a sequence of counts. */
  function Sum(s: seq<nat>): nat {
    if s == [] then 0 else Sum(s[..|s| - 1]) + s[|s| - 1]
  }

  function Min(img: seq<int>): (m: int)
    requires |img| > 0
    ensures m in img
    ensures forall p :: 0 <= p < |img| ==> m <= img[p]
  {
    if |img| == 1 then img[0]
    else
      var m := Min(img[..|img| - 1]);
      assert m in img[..|img| - 1];
      if img[|img| - 1] < m then img[|img| - 1] else m
  }

  function Max(img: seq<int>): (m: int)
    requires |img| > 0
    ensures m in img
    ensures forall p :: 0 <= p < |img| ==> img[p] <= m
  {
    if |img| == 1 then img[0]
    else
      var m := Max(img[..|img| - 1]);
      assert m in img[..|img| - 1];
      if img[|img| - 1] > m then img[|img| - 1] else m
  }

  /** The bin of value v among 256 equal-width bins spanning [lo, hi],
      the last bin closed on the right. An empty span (lo == hi) is widened
      to [lo - 1/2, lo + 1/2], which puts v at the left edge of bin 128.
      The bin edges lo + b*(hi-lo)/256 are dyadic, so comparing against them
      by cross-multiplication is exact. */
  function BinOf(v: int, lo: int, hi: int): (b: int)
    requires lo <= v <= hi
    ensures 0 <= b < 256
    ensures lo == hi ==> b == 128
    ensures lo < hi && v < hi ==> b * (hi - lo) <= (v - lo) * 256 < (b + 1) * (hi - lo)
    ensures lo < hi && v == hi ==> b == 255
  {
    if lo == hi then 128
    else if v == hi then 255
    else
      var b := (v - lo) * 256 / (hi - lo);
      BinBounds((v - lo) * 256, hi - lo, b);
      b
  }

  lemma BinBounds(x: nat, w: nat, b: int)
    requires 0 < w && x < 256 * w && b == x / w
    ensures 0 <= b < 256
    ensures b * w <= x < (b + 1) * w
  {
    assert x == b * w + x % w;
    if b >= 256 {
      MulMono(256, b, w);
    }
  }

  /** a <= b implies a*m <= b*m for a non-negative factor m. */
  lemma MulMono(a: int, b: int, m: nat)
    requires a <= b
    ensures a * m <= b * m
  {
    assert b * m - a * m == (b - a) * m;
  }

  /** a*m <= b*m implies a <= b for a positive factor m. */
  lemma MulCancelLe(a: int, b: int, m: int)
    requires m > 0 && a * m <= b * m
    ensures a <= b
  {
    assert (b - a) * m == b * m - a * m;
  }

  /** a*m < b*m implies a < b for a positive factor m. */
  lemma MulCancel(a: int, b: int, m: int)
    requires m > 0 && a * m < b * m
    ensures a < b
  {
    assert (b - a) * m == b * m - a * m;
  }

  /** Counts of the bin indices bs, one count per bin. */
  function Tally(bs: seq<int>): (h: seq<nat>)
    requires forall p :: 0 <= p < |bs| ==> 0 <= bs[p] < 256
    ensures |h| == 256
    ensures forall b :: 0 <= b < 256 ==> h[b] == multiset(bs)[b]
    ensures Sum(h) == |bs|
  {
    if bs == [] then
      SumZeros(256);
      seq(256, _ => 0)
    else
      var init, b := bs[..|bs| - 1], bs[|bs| - 1];
      assert bs == init + [b];
      var h := Tally(init);
      SumBump(h, b);
      h[b := h[b] + 1]
  }

  lemma {:induction false} SumZeros(n: nat)
    ensures Sum(seq(n, _ => 0)) == 0
  {
    if n > 0 {
      assert seq(n, _ => 0)[..n - 1] == seq(n - 1, _ => 0);
      SumZeros(n - 1);
    }
  }

  /** Adding one to one count adds one to the total. */
  lemma {:induction false} SumBump(h: seq<nat>, b: int)
    requires 0 <= b < |h|
    ensures Sum(h[b := h[b] + 1]) == Sum(h) + 1
  {
    var g := h[b := h[b] + 1];
    if b == |h| - 1 {
      assert g[..|g| - 1] == h[..|h| - 1];
    } else {
      assert g[..|g| - 1] == h[..|h| - 1][b := h[b] + 1];
      SumBump(h[..|h| - 1], b);
    }
  }

  /** The bin of every pixel, with the bins spanning the channel's own range. */
  function PixelBins(img: seq<int>): (bs: seq<int>)
    requires |img| > 0
    ensures |bs| == |img|
    ensures forall p :: 0 <= p < |img| ==> 0 <= bs[p] < 256
  {
    var lo, hi := Min(img), Max(img);
    seq(|img|, p requires 0 <= p < |img| => BinOf(img[p], lo, hi))
  }

  /** The 256-bin histogram of a channel over the channel's own value range,
      as `np.histogram(img.flatten(), bins=256)[0]` computes it. */
  function Histogram(img: seq<int>): (h: seq<nat>)
    requires |img| > 0
    ensures |h| == 256
    ensures Sum(h) == |img|
    ensures forall b :: 0 <= b < 256 ==> h[b] == multiset(PixelBins(img))[b]
  {
    Tally(PixelBins(img))
  }

  /** On the full range [0,255], bin b holds exactly the pixels at level b. */
  lemma FullRangeBinIsLevel(v: int)
    requires 0 <= v <= 255
    ensures BinOf(v, 0, 255) == v
  {
    var b := BinOf(v, 0, 255);
    if v < 255 {
      assert b * 255 <= v * 256 < (b + 1) * 255;
    }
  }

  /** When the channel spans 0..255 (what min-max scaling produces for a
      non-constant image), the histogram counts the pixels at each level. */
  lemma FullRangeHistogram(img: seq<int>)
    requires |img| > 0 && Min(img) == 0 && Max(img) == 255
    ensures forall l :: 0 <= l < 256 ==> Histogram(img)[l] == multiset(img)[l]
  {
    var bs := PixelBins(img);
    forall p | 0 <= p < |img| ensures bs[p] == img[p] {
      FullRangeBinIsLevel(img[p]);
    }
    assert bs == img;
  }

  /** The bin holding the darkest pixel lies below the top bin and is never
      empty: bin 0 for a channel with two or more levels, bin 128 for a
      constant one. */
  lemma BottomBinOccupied(img: seq<int>)
    requires |img| > 0
    ensures var b := BinOf(Min(img), Min(img), Max(img));
            b < 255 && Histogram(img)[b] > 0
  {
    var lo, hi := Min(img), Max(img);
    var b := BinOf(lo, lo, hi);
    var p :| 0 <= p < |img| && img[p] == lo;
    var bs := PixelBins(img);
    assert bs[p] == b;
    assert b in multiset(bs);
  }

  /** The running sum of a histogram, `np.cumsum(hist)`. */
  function CumSum(h: seq<nat>): (c: seq<nat>)
    ensures |c| == |h|
    ensures |h| > 0 ==> c[0] == h[0]
    ensures forall i :: 0 < i < |h| ==> c[i] == c[i - 1] + h[i]
  {
    var c := seq(|h|, i requires 0 <= i < |h| => Sum(h[..i + 1]));
    assert |h| > 0 ==> h[..1][..0] == [] && Sum(h[..1]) == h[0];
    assert forall i :: 0 < i < |h| ==> h[..i + 1][..i] == h[..i];
    c
  }

  /** The running sum never decreases. */
  lemma {:induction false} CumSumMonotone(h: seq<nat>, i: int, j: int)
    requires 0 <= i <= j < |h|
    ensures CumSum(h)[i] <= CumSum(h)[j]
  {
    if i < j {
      CumSumMonotone(h, i, j - 1);
    }
  }

  /** The last running sum is the total, so it is also the maximum entry. */
  lemma CumSumLast(h: seq<nat>)
    requires |h| > 0
    ensures CumSum(h)[|h| - 1] == Sum(h)
    ensures forall i :: 0 <= i < |h| ==> CumSum(h)[i] <= Sum(h)
  {
    assert h[..|h|] == h;
    forall i | 0 <= i < |h| ensures CumSum(h)[i] <= Sum(h) {
      CumSumMonotone(h, i, |h| - 1);
    }
  }

  /** What the rest of the model needs of a running sum over 256 bins of a
      non-empty channel. */
  predicate IsCumulative(c: seq<nat>) {
    && |c| == 256
    && c[255] > 0
    && forall i, j :: 0 <= i <= j < 256 ==> c[i] <= c[j]
  }

  /** The channel's running histogram: non-decreasing, ending at the pixel count. */
  lemma HistogramCumulative(img: seq<int>)
    requires |img| > 0
    ensures IsCumulative(CumSum(Histogram(img)))
    ensures CumSum(Histogram(img))[255] == |img|
  {
    var h := Histogram(img);
    CumSumLast(h);
    forall i, j | 0 <= i <= j < 256 ensures CumSum(h)[i] <= CumSum(h)[j] {
      CumSumMonotone(h, i, j);
    }
  }

  /** A channel rescaled to [0,1] by division by 255. */
  function ToUnit(img: seq<int>): (r: seq<real>)
    requires AllLevels(img)
    ensures |r| == |img|
    ensures forall p :: 0 <= p < |img| ==> 0.0 <= r[p] <= 1.0 && r[p] * 255.0 == img[p] as real
  {
    seq(|img|, p requires 0 <= p < |img| => img[p] as real / 255.0)
  }
}
