/** The quantizer's repainting pass: starting from an all-zero image, segment
    by segment in increasing order, every pixel whose current level exceeds
    the segment's lower boundary is overwritten with the segment's
    representative. */
module Assignment {
  import opened Histograms
  import opened Slicing

  /** The level a pixel at v ends up with once the passes for segments
      0..k-1 have run: the last pass whose boundary v exceeds wins. */
  function Paint(v: int, s: seq<int>, q: seq<int>, k: int): int
    requires k <= |s| && k <= |q|
    decreases k
  {
    if k <= 0 then 0
    else if v > s[k - 1] then q[k - 1] else Paint(v, s, q, k - 1)
  }

  /** A pixel ends up either 0 or one of the representatives, so a level
      whenever they all are. */
  lemma {:induction false} PaintLevel(v: int, s: seq<int>, q: seq<int>, k: int)
    requires k <= |s| && k <= |q| && AllLevels(q)
    ensures IsLevel(Paint(v, s, q, k))
    ensures Paint(v, s, q, k) == 0 || exists i :: 0 <= i < k && Paint(v, s, q, k) == q[i]
    decreases k
  {
    if k > 0 && v <= s[k - 1] {
      PaintLevel(v, s, q, k - 1);
    }
  }

  /** A pixel takes the representative of the LARGEST segment index whose
      lower boundary it exceeds, and stays 0 when it exceeds none. */
  lemma {:induction false} PaintLargest(v: int, s: seq<int>, q: seq<int>, k: int)
    requires 0 <= k <= |s| && k <= |q|
    ensures (forall i :: 0 <= i < k ==> v <= s[i]) ==> Paint(v, s, q, k) == 0
    ensures forall i :: 0 <= i < k && v > s[i] && (forall i' :: i < i' < k ==> v <= s[i'])
                        ==> Paint(v, s, q, k) == q[i]
  {
    if k > 0 && v <= s[k - 1] {
      PaintLargest(v, s, q, k - 1);
    }
  }

  /** Over a partition the passes amount to interval assignment on
      (s[j], s[j+1]]: the last segment also takes every level above s[n-1],
      and a pixel at 0 stays 0. */
  lemma PaintInterval(v: int, s: seq<int>, q: seq<int>, n: int)
    requires WellFormed(s, n) && |q| >= n
    ensures v <= 0 ==> Paint(v, s, q, n) == 0
    ensures forall j :: 0 <= j < n && s[j] < v && (j == n - 1 || v <= s[j + 1])
                        ==> Paint(v, s, q, n) == q[j]
  {
    PaintLargest(v, s, q, n);
    forall j | 0 <= j < n && s[j] < v && (j == n - 1 || v <= s[j + 1])
      ensures Paint(v, s, q, n) == q[j]
    {
      assert forall i' :: j < i' < n ==> s[j + 1] <= s[i'];
    }
  }

  lemma PaintLevels(work: seq<int>, s: seq<int>, q: seq<int>, n: int)
    requires n <= |s| && n <= |q|
    ensures AllLevels(q) ==> forall p :: 0 <= p < |work| ==> IsLevel(Paint(work[p], s, q, n))
  {
    if AllLevels(q) {
      forall p | 0 <= p < |work| ensures IsLevel(Paint(work[p], s, q, n)) {
        PaintLevel(work[p], s, q, n);
      }
    }
  }

  /** The image `temp_img` after all n passes. */
  function Painted(work: seq<int>, s: seq<int>, q: seq<int>, n: int): (out: seq<int>)
    requires n <= |s| && n <= |q|
    ensures |out| == |work|
    ensures AllLevels(q) ==> AllLevels(out)
  {
    PaintLevels(work, s, q, n);
    seq(|work|, p requires 0 <= p < |work| => Paint(work[p], s, q, n))
  }

  /** Repaints the working image (lines 157 and 165-166 of ex1_utils.py): a zero image,
      overwritten in place segment by segment wherever the working image
      exceeds the segment's lower boundary. */
  method Repaint(tmpMat: seq<int>, slices: seq<int>, qi: seq<int>, nQuant: int) returns (img: seq<int>)
    requires nQuant <= |slices| && nQuant <= |qi|
    ensures |img| == |tmpMat|
    ensures forall p :: 0 <= p < |tmpMat| ==> img[p] == Paint(tmpMat[p], slices, qi, nQuant)
  {
    var tempImg := new int[|tmpMat|](_ => 0);
    var k := 0;
    while k < nQuant
      invariant 0 <= k <= (if nQuant > 0 then nQuant else 0)
      invariant forall p :: 0 <= p < |tmpMat| ==> tempImg[p] == Paint(tmpMat[p], slices, qi, k)
    {
      for p := 0 to |tmpMat|
        invariant forall x :: 0 <= x < |tmpMat| ==>
                    tempImg[x] == Paint(tmpMat[x], slices, qi, if x < p then k + 1 else k)
      {
        if tmpMat[p] > slices[k] {
          tempImg[p] := qi[k];
        }
      }
      k := k + 1;
    }
    img := tempImg[..];
  }
}
