/** Displacement engine: the squared displacements of a 2D trajectory at one lag (`Track.SD`,
    `_calculate_sd_at`) and the per-lag mean squared displacement (`MSD_loop`). */
module Displacement {
  import opened Numerics

  /** Squared displacement between the positions at indices k and k + j. */
  function SqDisp(x: seq<real>, y: seq<real>, k: nat, j: nat): (d: real)
    requires k + j < |x| && k + j < |y|
    ensures d >= 0.0
  {
    var dx := x[k + j] - x[k];
    var dy := y[k + j] - y[k];
    dx * dx + dy * dy
  }

  /** The vectorised `(x[idx_t] - x[idx_0])**2 + (y[idx_t] - y[idx_0])**2` with
      `idx_0 = arange(lo, hi)` and `idx_t = idx_0 + j`. */
  function Displacements(x: seq<real>, y: seq<real>, j: nat, lo: nat, hi: nat): seq<real>
    requires lo <= hi && (lo == hi || (hi + j <= |x| && hi + j <= |y|))
  {
    seq(hi - lo, m requires 0 <= m < hi - lo => SqDisp(x, y, lo + m, j))
  }

  lemma DisplacementsNonNegative(x: seq<real>, y: seq<real>, j: nat, lo: nat, hi: nat)
    requires lo <= hi && (lo == hi || (hi + j <= |x| && hi + j <= |y|))
    ensures |Displacements(x, y, j, lo, hi)| == hi - lo
    ensures NonNegative(Displacements(x, y, j, lo, hi))
  {
    var d := Displacements(x, y, j, lo, hi);
    forall m | 0 <= m < |d| ensures d[m] >= 0.0 {
      assert d[m] == SqDisp(x, y, lo + m, j);
    }
  }

  /** Splitting off the pair that starts at `lo`. */
  lemma DisplacementsCons(x: seq<real>, y: seq<real>, j: nat, lo: nat, hi: nat)
    requires lo < hi && hi + j <= |x| && hi + j <= |y|
    ensures Displacements(x, y, j, lo, hi) == [SqDisp(x, y, lo, j)] + Displacements(x, y, j, lo + 1, hi)
  {
  }

  /** A lower bound of every element may be put in front of a sorted sequence. */
  lemma ConsSorted(h: real, t: seq<real>)
    requires Sorted(t) && forall k :: 0 <= k < |t| ==> h <= t[k]
    ensures Sorted([h] + t)
  {
  }

  /** A lower bound of `u` and of `v` bounds every element of a sequence holding `u`'s elements
      and `v`. */
  lemma BoundsCarryOver(h: real, t: seq<real>, u: seq<real>, v: real)
    requires multiset(t) == multiset(u) + multiset{v}
    requires h <= v && forall k :: 0 <= k < |u| ==> h <= u[k]
    ensures forall k :: 0 <= k < |t| ==> h <= t[k]
  {
    forall k | 0 <= k < |t| ensures h <= t[k] {
      assert t[k] in multiset(u) + multiset{v};
      if t[k] != v {
        assert t[k] in multiset(u);
      }
    }
  }

  /** Inserting one value into a sorted sequence. */
  function Insert(v: real, s: seq<real>): (r: seq<real>)
    requires Sorted(s)
    ensures Sorted(r)
    ensures multiset(r) == multiset(s) + multiset{v}
    ensures |r| == |s| + 1
  {
    if |s| == 0 then [v]
    else if v <= s[0] then
      ConsSorted(v, s);
      [v] + s
    else
      assert s == [s[0]] + s[1..];
      var tail := Insert(v, s[1..]);
      BoundsCarryOver(s[0], tail, s[1..], v);
      ConsSorted(s[0], tail);
      [s[0]] + tail
  }

  /** Ascending sort (`ndarray.sort`), written as an insertion sort. */
  function Sort(s: seq<real>): (r: seq<real>)
    ensures Sorted(r)
    ensures multiset(r) == multiset(s)
    ensures |r| == |s|
  {
    if |s| == 0 then []
    else
      assert s == [s[0]] + s[1..];
      Insert(s[0], Sort(s[1..]))
  }

  /** Any two ascending permutations of one multiset coincide, so the insertion sort above gives
      exactly what numpy's sort gives. */
  lemma {:induction false} SortedPermutationUnique(a: seq<real>, b: seq<real>)
    requires Sorted(a) && Sorted(b) && multiset(a) == multiset(b)
    ensures a == b
    decreases |a|
  {
    if |a| == 0 {
      assert |b| == |multiset(b)| == 0;
    } else {
      assert |b| == |multiset(b)| == |a|;
      HeadIsLeast(a, b);
      HeadIsLeast(b, a);
      MultisetTail(a);
      MultisetTail(b);
      SortedTail(a);
      SortedTail(b);
      SortedPermutationUnique(a[1..], b[1..]);
      assert a == [a[0]] + a[1..] && b == [b[0]] + b[1..];
    }
  }

  lemma SortedTail(a: seq<real>)
    requires Sorted(a) && |a| > 0
    ensures Sorted(a[1..])
  {
    forall i, j | 0 <= i < j < |a| - 1 ensures a[1..][i] <= a[1..][j] {
      assert a[1..][i] == a[i + 1] && a[1..][j] == a[j + 1];
    }
  }

  /** The head of a sorted sequence is at most every element of any permutation of it. */
  lemma HeadIsLeast(a: seq<real>, b: seq<real>)
    requires Sorted(b) && |a| > 0 && multiset(a) == multiset(b)
    ensures |b| > 0 && b[0] <= a[0]
  {
    assert a[0] in multiset(b);
  }

  /** A permutation of non-negative values is non-negative. */
  lemma PermutationNonNegative(a: seq<real>, b: seq<real>)
    requires multiset(a) == multiset(b) && NonNegative(b)
    ensures NonNegative(a)
  {
    forall i | 0 <= i < |a| ensures a[i] >= 0.0 {
      assert a[i] in multiset(b);
    }
  }

  /** Number of index pairs `(k, k + j)` that `arange(0, n - j - 1)` yields. */
  function PairCount(n: nat, j: nat): nat
  {
    if j + 1 <= n then n - j - 1 else 0
  }

  /** `Track.SD(j)` and `_calculate_sd_at(j)`: the squared displacements of the pairs
      `(k, k + j)` for `0 <= k < N - j - 1`, sorted ascending. */
  function SD(x: seq<real>, y: seq<real>, j: nat): (r: seq<real>)
    requires |x| == |y|
    ensures |r| == PairCount(|x|, j)
    ensures Sorted(r)
    ensures multiset(r) == multiset(Displacements(x, y, j, 0, PairCount(|x|, j)))
    ensures NonNegative(r)
  {
    var raw := Displacements(x, y, j, 0, PairCount(|x|, j));
    DisplacementsNonNegative(x, y, j, 0, PairCount(|x|, j));
    var r := Sort(raw);
    PermutationNonNegative(r, raw);
    r
  }

  /** The SD series is sorted, so its first entry is at most its last: the spread the SD
      analysis bins is never negative. */
  lemma SDSpread(x: seq<real>, y: seq<real>, j: nat)
    requires |x| == |y| && j + 1 < |x|
    ensures 0.0 <= SD(x, y, j)[0] <= SD(x, y, j)[|SD(x, y, j)| - 1]
  {
  }

  /** The lag-i bucket that the MSD averages: pairs `(k, k + i)` for `1 <= k < n - i - 1`.
      Index 0 is skipped, and `n` may exceed the track length by one. */
  function MsdBucket(x: seq<real>, y: seq<real>, n: nat, i: nat): (b: seq<real>)
    requires |x| == |y| && 1 <= i && i + 3 <= n <= |x| + 1
    ensures |b| == n - i - 2 >= 1
    ensures NonNegative(b)
  {
    DisplacementsNonNegative(x, y, i, 1, n - i - 1);
    Displacements(x, y, i, 1, n - i - 1)
  }

  /** `MSD_loop(i, pos_x, pos_y, N)`: the mean of the lag-i bucket and its standard error. */
  function MsdLoop(i: nat, posX: seq<real>, posY: seq<real>, n: nat, nm: Numerics): (r: (real, real))
    requires |posX| == |posY| && 1 <= i && i + 3 <= n <= |posX| + 1 && Sane(nm)
    ensures r.0 >= 0.0
  {
    var b := MsdBucket(posX, posY, n, i);
    MeanNonNegative(b);
    (Mean(b), StdErr(b, nm))
  }

  /** The per-axis sum is symmetric, so passing the coordinates as (y, x), as the parallel
      branch of `calculateMSD` does, gives the same result as (x, y). */
  lemma MsdLoopSwap(i: nat, x: seq<real>, y: seq<real>, n: nat, nm: Numerics)
    requires |x| == |y| && 1 <= i && i + 3 <= n <= |x| + 1 && Sane(nm)
    ensures MsdLoop(i, y, x, n, nm) == MsdLoop(i, x, y, n, nm)
  {
    assert MsdBucket(y, x, n, i) == MsdBucket(x, y, n, i);
  }

  /** An MSD length `n` the track supports: `np.zeros(n - 3)` needs `n >= 3`, and the first lag
      reads index `n - 2`, which must lie on the track unless there is no lag at all (`n = 3`). */
  predicate MsdLengthFits(n: int, len: nat)
  {
    3 <= n && (n == 3 || n <= len + 1)
  }

  /** The `MSD` array: slot `i - 1` holds the mean of the lag-i bucket, for lags 1 .. n - 3. */
  function MsdCurve(x: seq<real>, y: seq<real>, n: nat): (c: seq<real>)
    requires |x| == |y| && MsdLengthFits(n, |x|)
    ensures |c| == n - 3
  {
    seq(n - 3, k requires 0 <= k < n - 3 => Mean(MsdBucket(x, y, n, k + 1)))
  }

  /** The MSD curve has one slot per lag 1 .. n - 3, and no slot is negative. */
  lemma MsdCurveShape(x: seq<real>, y: seq<real>, n: nat)
    requires |x| == |y| && MsdLengthFits(n, |x|)
    ensures |MsdCurve(x, y, n)| == n - 3
    ensures NonNegative(MsdCurve(x, y, n))
  {
    var c := MsdCurve(x, y, n);
    forall k | 0 <= k < n - 3 ensures c[k] >= 0.0 {
      MeanNonNegative(MsdBucket(x, y, n, k + 1));
    }
  }

  /** The `MSD_error` array: slot `i - 1` holds the standard error of the lag-i bucket. */
  function MsdErrorCurve(x: seq<real>, y: seq<real>, n: nat, nm: Numerics): (c: seq<real>)
    requires |x| == |y| && MsdLengthFits(n, |x|) && Sane(nm)
    ensures |c| == n - 3
  {
    seq(n - 3, k requires 0 <= k < n - 3 => StdErr(MsdBucket(x, y, n, k + 1), nm))
  }

  /** Slot mapping: lag i (1 <= i <= n - 3) is stored at slot i - 1, and that slot is what
      `MSD_loop` computes for lag i. */
  lemma MsdCurveSlot(x: seq<real>, y: seq<real>, n: nat, i: nat, nm: Numerics)
    requires |x| == |y| && 1 <= i && i + 3 <= n <= |x| + 1 && Sane(nm)
    ensures MsdCurve(x, y, n)[i - 1] == MsdLoop(i, x, y, n, nm).0
    ensures MsdErrorCurve(x, y, n, nm)[i - 1] == MsdLoop(i, x, y, n, nm).1
  {
  }

  /** What the parallel branch of `calculateMSD` stores at slot k: `MSD_loop(k + 1, y, x, N)`,
      with swapped coordinates, is the slot's MSD value and standard error. */
  lemma SwappedLoopFillsSlot(x: seq<real>, y: seq<real>, n: nat, k: nat, nm: Numerics)
    requires |x| == |y| && k + 4 <= n <= |x| + 1 && Sane(nm)
    ensures MsdLoop(k + 1, y, x, n, nm) == (MsdCurve(x, y, n)[k], MsdErrorCurve(x, y, n, nm)[k])
  {
    MsdLoopSwap(k + 1, x, y, n, nm);
    MsdCurveSlot(x, y, n, k + 1, nm);
  }

  /** Relation between the two displacement statistics on a whole track: the lag-i MSD bucket
      holds every squared displacement of `SD(i)` except the one of the pair starting at
      index 0, so the bucket's sum is the SD sum minus that pair. */
  lemma {:induction false} MsdBucketDropsFirstPair(x: seq<real>, y: seq<real>, i: nat)
    requires |x| == |y| && 1 <= i && i + 3 <= |x|
    ensures Sum(SD(x, y, i)) == SqDisp(x, y, 0, i) + Sum(MsdBucket(x, y, |x|, i))
  {
    var hi := PairCount(|x|, i);
    var first := SqDisp(x, y, 0, i);
    var rest := Displacements(x, y, i, 1, hi);
    var all := Displacements(x, y, i, 0, hi);
    var sd := SD(x, y, i);
    assert rest == MsdBucket(x, y, |x|, i);
    SumPermutation(sd, all);
    DisplacementsCons(x, y, i, 0, hi);
    SumAppend([first], rest);
    assert Sum([first]) == first + Sum([]);
    assert Sum(sd) == first + Sum(rest);
  }
}
