/** The quantizer's first, mass-balanced list of segment boundaries
    (`slices`), read off the running histogram. */
module Slicing {
  import opened Histograms

  /** Python's `list.insert(i, x)`: a negative index counts from the end, and
      an index past either end is clamped to that end. */
  function PyInsert(s: seq<int>, i: int, x: int): (r: seq<int>)
    ensures |r| == |s| + 1
    ensures i >= |s| ==> r == s + [x]
    ensures (i == 0 || i + |s| <= 0) ==> r == [x] + s
  {
    var j := if i < 0 then (if i + |s| < 0 then 0 else i + |s|) else (if i > |s| then |s| else i);
    assert s == s[..j] + s[j..];
    s[..j] + [x] + s[j..]
  }

  /** An insertion adds x and keeps every other element. */
  lemma InsertPermutes(s: seq<int>, i: int, x: int)
    ensures multiset(PyInsert(s, i, x)) == multiset(s) + multiset{x}
  {
    var j := if i < 0 then (if i + |s| < 0 then 0 else i + |s|) else (if i > |s| then |s| else i);
    assert s == s[..j] + s[j..];
  }

  /** Inserting a level into a list of levels gives a list of levels. */
  lemma InsertLevel(s: seq<int>, i: int, x: int)
    requires AllLevels(s) && IsLevel(x)
    ensures AllLevels(PyInsert(s, i, x))
  {
    var r := PyInsert(s, i, x);
    InsertPermutes(s, i, x);
    forall k | 0 <= k < |r| ensures IsLevel(r[k]) {
      assert r[k] in multiset(r);
      if r[k] != x {
        assert r[k] in multiset(s);
        var p :| 0 <= p < |s| && s[p] == r[k];
      }
    }
  }

  /** The test `cumSum[i] <= each_slice * k <= cumSum[i + 1]` with
      `each_slice = cumSum.max() / n`, multiplied through by n. For n == 0
      the target is infinite and for n < 0 it is negative, so the test fails. */
  predicate Straddles(c: seq<nat>, n: int, k: int, i: int)
    requires |c| == 256 && 0 <= i < 255
  {
    n > 0 && c[i] * n <= c[255] * k <= c[i + 1] * n
  }

  /** The list `slices` and the counter `k` once the scan has examined
      levels 0..i-1: level i-1 is appended when it straddles the k-th target,
      and only then is k advanced. */
  function Scan(c: seq<nat>, n: int, i: int): (r: (seq<int>, int))
    requires |c| == 256 && 0 <= i <= 255
    ensures |r.0| == r.1 >= 1 && r.0[0] == 0
    ensures forall j :: 1 <= j < |r.0| ==> 0 <= r.0[j] < i
    ensures forall j, j' :: 1 <= j < j' < |r.0| ==> r.0[j] < r.0[j']
  {
    if i == 0 then ([0], 1)
    else
      var (s, k) := Scan(c, n, i - 1);
      if Straddles(c, n, k, i - 1) then (s + [i - 1], k + 1) else (s, k)
  }

  /** The boundaries the quantizer starts from: the scanned list with its last
      entry popped and 255 inserted at position n. */
  function Initial(c: seq<nat>, n: int): seq<int>
    requires |c| == 256
  {
    var s := Scan(c, n, 255).0;
    PyInsert(s[..|s| - 1], n, 255)
  }

  /** A partition of the levels into n half-open segments
      [s[j], s[j+1]), running from 0 to 255. */
  predicate WellFormed(s: seq<int>, n: int) {
    && n >= 1
    && |s| == n + 1
    && s[0] == 0
    && s[n] == 255
    && forall j, j' :: 0 <= j <= j' <= n ==> s[j] <= s[j']
  }

  /** The scan finds at most n boundaries: the k-th is found only at a level
      whose running sum reaches k/n of the pixels, and no running sum exceeds
      the total. */
  lemma {:induction false} ScanBound(c: seq<nat>, n: int, i: int)
    requires IsCumulative(c) && 0 <= i <= 255
    ensures Scan(c, n, i).1 <= (if n > 0 then n + 1 else 1)
  {
    if i > 0 {
      ScanBound(c, n, i - 1);
      var (s, k) := Scan(c, n, i - 1);
      if Straddles(c, n, k, i - 1) {
        MulMono(c[i], c[255], n);
        MulCancelLe(k, n, c[255]);
      }
    }
  }

  /** The starting list ends in 255, holds at most n + 1 levels, strictly
      increasing after its leading 0; it is a partition into n segments
      exactly when it has n + 1 entries, that is when the scan found all n
      targets. */
  lemma InitialShape(c: seq<nat>, n: int)
    requires IsCumulative(c)
    ensures var s := Initial(c, n);
      && 1 <= |s| <= (if n > 0 then n + 1 else 1)
      && s[|s| - 1] == 255
      && AllLevels(s)
      && (|s| >= 2 ==> s[0] == 0)
      && (forall j, j' :: 1 <= j < j' < |s| ==> s[j] < s[j'])
      && (forall j, j' :: 0 <= j <= j' < |s| ==> s[j] <= s[j'])
      && (WellFormed(s, n) <==> n >= 1 && |s| == n + 1)
  {
    ScanBound(c, n, 255);
    var f := Scan(c, n, 255).0;
    var s := Initial(c, n);
    assert s == f[..|f| - 1] + [255];
  }

  /** The scan only ever appends: the list after fewer levels is a prefix of
      the list after more. */
  lemma {:induction false} ScanPrefix(c: seq<nat>, n: int, j: int, i: int)
    requires |c| == 256 && 0 <= j <= i <= 255
    ensures Scan(c, n, j).0 <= Scan(c, n, i).0
    decreases i
  {
    if j < i {
      ScanPrefix(c, n, j, i - 1);
    }
  }

  /** Every boundary the scan appends meets its own target: at the j-th
      level found the running sum is at most j/n of the pixels, and at the
      level after it at least j/n. */
  lemma {:induction false} ScanBalanced(c: seq<nat>, n: int, i: int)
    requires |c| == 256 && 0 <= i <= 255
    ensures forall j :: 1 <= j < |Scan(c, n, i).0| ==> Straddles(c, n, j, Scan(c, n, i).0[j])
    decreases i
  {
    if i > 0 {
      ScanBalanced(c, n, i - 1);
      var s := Scan(c, n, i - 1).0;
      var r := Scan(c, n, i).0;
      if Straddles(c, n, |s|, i - 1) {
        assert r == s + [i - 1];
        forall j | 1 <= j < |r| ensures Straddles(c, n, j, r[j]) {
          if j < |s| {
            assert r[j] == s[j];
          }
        }
      } else {
        assert r == s;
      }
    }
  }

  /** Conversely, the scan skips no level that meets the pending target:
      after levels 0..i-1, no level past the last boundary found meets the
      next target. */
  lemma {:induction false} ScanSkipsAfter(c: seq<nat>, n: int, i: int)
    requires |c| == 256 && 0 <= i <= 255
    ensures forall l :: 0 <= l < i && (Scan(c, n, i).1 == 1 || Scan(c, n, i).0[Scan(c, n, i).1 - 1] < l)
                        ==> !Straddles(c, n, Scan(c, n, i).1, l)
    decreases i
  {
    if i > 0 {
      ScanSkipsAfter(c, n, i - 1);
      var s := Scan(c, n, i - 1).0;
      var r := Scan(c, n, i).0;
      if Straddles(c, n, |s|, i - 1) {
        assert r == s + [i - 1] && Scan(c, n, i).1 == |s| + 1;
      } else {
        assert r == s && Scan(c, n, i).1 == |s|;
      }
    }
  }

  /** No level below the j-th boundary, and above the boundary before it,
      meets target j: each boundary is the first level that meets its target. */
  lemma {:induction false} ScanSkipsBelow(c: seq<nat>, n: int, i: int)
    requires |c| == 256 && 0 <= i <= 255
    ensures forall j, l :: 1 <= j < |Scan(c, n, i).0| && 0 <= l < Scan(c, n, i).0[j] && (j == 1 || Scan(c, n, i).0[j - 1] < l)
                           ==> !Straddles(c, n, j, l)
    decreases i
  {
    if i > 0 {
      ScanSkipsBelow(c, n, i - 1);
      ScanSkipsAfter(c, n, i - 1);
      var s := Scan(c, n, i - 1).0;
      var r := Scan(c, n, i).0;
      var k := |s|;
      if Straddles(c, n, k, i - 1) {
        assert r == s + [i - 1];
        forall j, l | 1 <= j < |r| && 0 <= l < r[j] && (j == 1 || r[j - 1] < l)
          ensures !Straddles(c, n, j, l)
        {
          if j < k {
            assert r[j] == s[j] && r[j - 1] == s[j - 1];
          } else {
            assert r[j] == i - 1 && (j == 1 || r[j - 1] == s[k - 1]);
          }
        }
      } else {
        assert r == s;
      }
    }
  }

  /** When the starting list is a partition, each interior boundary is the
      level the scan found for its target: the running sum at s[j] is at most
      j/n of the pixels, and at the level after it at least j/n. */
  lemma InitialBalanced(c: seq<nat>, n: int)
    requires IsCumulative(c) && WellFormed(Initial(c, n), n)
    ensures forall j :: 1 <= j < n ==> 0 <= Initial(c, n)[j] < 255 && Straddles(c, n, j, Initial(c, n)[j])
  {
    ScanBalanced(c, n, 255);
    var f := Scan(c, n, 255).0;
    var g := f[..|f| - 1];
    assert Initial(c, n) == PyInsert(g, n, 255);
    assert |g| == n && Initial(c, n) == g + [255];
    forall j | 1 <= j < n ensures 0 <= Initial(c, n)[j] < 255 && Straddles(c, n, j, Initial(c, n)[j]) {
      assert Initial(c, n)[j] == g[j] == f[j];
    }
  }

  /** When more than a share 1/n of the pixels lie in the lowest bin, no level
      reaches the first target, so the scan finds nothing. */
  lemma {:induction false} ScanCrowded(c: seq<nat>, n: int, i: int)
    requires IsCumulative(c) && n >= 1 && c[0] * n > c[255] && 0 <= i <= 255
    ensures Scan(c, n, i) == ([0], 1)
    decreases i
  {
    if i > 0 {
      ScanCrowded(c, n, i - 1);
      MulMono(c[0], c[i - 1], n);
    }
  }

  /** With more than a share 1/n of the pixels in the lowest bin the starting
      list is just [255]: there is no lower boundary for the first segment. */
  lemma CrowdedFloorInitial(c: seq<nat>, n: int)
    requires IsCumulative(c) && n >= 1 && c[0] * n > c[255]
    ensures Initial(c, n) == [255]
  {
    ScanCrowded(c, n, 255);
  }

  /** With exactly a share 1/n of the pixels in the lowest bin (n >= 2), level
      0 meets the first target, so 0 becomes a boundary twice: either the
      first segment is [0, 0), or the scan found nothing more and the list is
      [0, 255]. */
  lemma ExactFloorInitial(c: seq<nat>, n: int)
    requires IsCumulative(c) && n >= 2 && c[0] * n == c[255]
    ensures var s := Initial(c, n); s == [0, 255] || (|s| >= 3 && s[1] == 0)
  {
    assert c[0] <= c[1];
    MulMono(c[0], c[1], n);
    assert Scan(c, n, 0) == ([0], 1) && Straddles(c, n, 1, 0);
    assert [0] + [0] == [0, 0];
    assert Scan(c, n, 1) == ([0, 0], 2);
    ScanPrefix(c, n, 1, 255);
    ScanBound(c, n, 255);
    var f := Scan(c, n, 255).0;
    assert f[..2] == [0, 0];
    if |f| == 2 {
      assert f[..1] == [0];
    } else {
      assert Initial(c, n) == f[..|f| - 1] + [255];
    }
  }

  /** For a single level, the scan advances exactly once, at the first level
      whose running sum reaches the total. */
  lemma {:induction false} ScanOneLevel(c: seq<nat>, i: int)
    requires IsCumulative(c) && 0 <= i <= 255
    ensures Scan(c, 1, i).1 == (if i >= 1 && c[i] == c[255] then 2 else 1)
    decreases i
  {
    if i > 0 {
      ScanOneLevel(c, i - 1);
      assert c[i - 1] <= c[i] <= c[255];
    }
  }

  /** For a single level the starting list is always [0, 255]. */
  lemma InitialOneLevel(c: seq<nat>)
    requires IsCumulative(c)
    ensures Initial(c, 1) == [0, 255]
  {
    ScanOneLevel(c, 255);
    var f := Scan(c, 1, 255).0;
    assert f[..1] == [0];
  }

  /** Builds the starting boundaries: one pass over levels 0..254 that appends
      a level whenever it straddles the next target, then `pop` and
      `insert(nQuant, 255)`. */
  method InitialSlices(cumSum: seq<nat>, nQuant: int) returns (slices: seq<int>)
    requires |cumSum| == 256
    ensures slices == Initial(cumSum, nQuant)
  {
    slices := [0];
    var k := 1;
    for i := 0 to 255
      invariant (slices, k) == Scan(cumSum, nQuant, i)
    {
      if Straddles(cumSum, nQuant, k, i) {
        slices := slices + [i];
        k := k + 1;
      }
    }
    slices := slices[..|slices| - 1];
    slices := PyInsert(slices, nQuant, 255);
  }
}
