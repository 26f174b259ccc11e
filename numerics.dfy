/** The numerical vocabulary shared by the analyses: the floating-point library calls that the
    model does not interpret (square root, exponential, logarithm, power, population standard
    deviation), and exact helpers on reals for sums, means, Python's `int()` and `ceil`. */
module Numerics {

  /** The library functions the analyses call, as uninterpreted real functions. */
  datatype Numerics = Numerics(
    sqrt: real -> real,        // np.sqrt
    exp: real -> real,         // np.exp
    log: real -> real,         // np.log
    pow: (real, real) -> real, // t ** alpha
    std: seq<real> -> real     // np.std (ddof = 0)
  )

  /** The few facts about the real functions that the analyses' promises rest on. */
  ghost predicate Sane(nm: Numerics)
  {
    && nm.exp(0.0) == 1.0
    && nm.log(1.0) == 0.0
    && (forall r: real :: r > 0.0 ==> nm.sqrt(r) > 0.0)
    && (forall a: real, b: real {:trigger nm.sqrt(a), nm.sqrt(b)} :: 0.0 <= a <= b ==> nm.sqrt(a) <= nm.sqrt(b))
    && (forall t: real :: nm.pow(t, 1.0) == t)
  }

  /** `d ** 2`: never negative, and zero only for `d = 0`. */
  function Square(d: real): (r: real)
    ensures r >= 0.0
    ensures r > 0.0 || d == 0.0
  {
    var e := d;
    ProductOfEqualsSign(d, e);
    d * e
  }

  /** The product of a number with itself, by the sign of the number: positive times positive,
      negative times negative as `(-x) * (-y)`, and zero. */
  lemma ProductOfEqualsSign(x: real, y: real)
    requires x == y
    ensures x * y >= 0.0
    ensures x * y > 0.0 || x == 0.0
  {
    if x > 0.0 {
      assert y > 0.0;
      assert x * y > 0.0;
    } else if x < 0.0 {
      assert -x > 0.0 && -y > 0.0;
      assert x * y == (-x) * (-y) > 0.0;
    } else {
      assert x * y == 0.0;
    }
  }

  /** `np.sqrt` applied to an array, element by element: the displacement lengths of the SD
      analysis, and the parameter standard deviations from a covariance diagonal. */
  function Roots(s: seq<real>, nm: Numerics): (r: seq<real>)
    ensures |r| == |s|
  {
    seq(|s|, i requires 0 <= i < |s| => nm.sqrt(s[i]))
  }

  /** Sum of a sequence, accumulated from the front. */
  function Sum(s: seq<real>): real
  {
    if |s| == 0 then 0.0 else s[0] + Sum(s[1..])
  }

  /** np.mean of a non-empty array. */
  function Mean(s: seq<real>): real
    requires |s| > 0
  {
    Sum(s) / |s| as real
  }

  /** The standard error of the mean, `np.std(s) / np.sqrt(len(s))`. */
  function StdErr(s: seq<real>, nm: Numerics): real
    requires |s| > 0 && Sane(nm)
  {
    nm.std(s) / nm.sqrt(|s| as real)
  }

  /** Python's `int()` applied to a float: truncation toward zero. */
  function Trunc(r: real): (n: int)
    ensures 0.0 <= r ==> 0 <= n && n as real <= r < n as real + 1.0
    ensures r < 0.0 ==> n <= 0 && r <= n as real < r + 1.0
  {
    if r >= 0.0 then r.Floor else -((-r).Floor)
  }

  /** `np.ceil`: the least integer not below `r`. */
  function Ceil(r: real): (n: int)
    ensures r <= n as real < r + 1.0
  {
    -((-r).Floor)
  }

  predicate Sorted(s: seq<real>)
  {
    forall i, j :: 0 <= i < j < |s| ==> s[i] <= s[j]
  }

  predicate NonNegative(s: seq<real>)
  {
    forall i :: 0 <= i < |s| ==> s[i] >= 0.0
  }

  /** The mean of non-negative values is non-negative. */
  lemma {:induction false} SumNonNegative(s: seq<real>)
    requires NonNegative(s)
    ensures Sum(s) >= 0.0
  {
    if |s| > 0 {
      assert NonNegative(s[1..]) by {
        forall i | 0 <= i < |s| - 1 ensures s[1..][i] >= 0.0 { assert s[1..][i] == s[i + 1]; }
      }
      SumNonNegative(s[1..]);
    }
  }

  lemma {:induction false} SumAppend(a: seq<real>, b: seq<real>)
    ensures Sum(a + b) == Sum(a) + Sum(b)
  {
    if |a| == 0 {
      assert a + b == b;
    } else {
      assert (a + b)[1..] == a[1..] + b;
      SumAppend(a[1..], b);
    }
  }

  /** Taking one term out of a sum. */
  lemma {:induction false} SumRemove(b: seq<real>, k: nat)
    requires k < |b|
    ensures Sum(b) == b[k] + Sum(b[..k] + b[k + 1..])
  {
    assert b == b[..k] + ([b[k]] + b[k + 1..]);
    SumAppend(b[..k], [b[k]] + b[k + 1..]);
    SumAppend([b[k]], b[k + 1..]);
    SumAppend(b[..k], b[k + 1..]);
  }

  /** Taking one element out of a sequence takes one copy of it out of its multiset. */
  lemma MultisetRemove<T>(b: seq<T>, k: nat)
    requires k < |b|
    ensures multiset(b[..k] + b[k + 1..]) == multiset(b) - multiset{b[k]}
  {
    assert b == b[..k] + [b[k]] + b[k + 1..];
  }

  /** Dropping the head of a sequence drops one copy of it from the multiset. */
  lemma MultisetTail<T>(a: seq<T>)
    requires |a| > 0
    ensures multiset(a[1..]) == multiset(a) - multiset{a[0]}
  {
    assert a == [a[0]] + a[1..];
  }

  /** A sum depends only on the multiset of its terms: reordering (as a sort does) keeps it. */
  lemma {:induction false} SumPermutation(a: seq<real>, b: seq<real>)
    requires multiset(a) == multiset(b)
    ensures Sum(a) == Sum(b)
    decreases |a|
  {
    if |a| == 0 {
      assert |b| == |multiset(b)| == 0;
    } else {
      var x := a[0];
      assert x in multiset(b);
      var k :| 0 <= k < |b| && b[k] == x;
      var rest := b[..k] + b[k + 1..];
      MultisetRemove(b, k);
      MultisetTail(a);
      SumPermutation(a[1..], rest);
      SumRemove(b, k);
    }
  }

  /** Mean of non-negative values is non-negative. */
  lemma MeanNonNegative(s: seq<real>)
    requires |s| > 0 && NonNegative(s)
    ensures Mean(s) >= 0.0
  {
    SumNonNegative(s);
  }
}
