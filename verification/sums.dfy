/** Exact arithmetic over columns of real numbers: the model's stand-in for
    pandas `sum`, `cumsum` and numpy `mean`. */
module Sums {

  /** The sum of a column (`Series.sum()`); 0 for an empty column. */
  function Sum(xs: seq<real>): real {
    if |xs| == 0 then 0.0 else xs[0] + Sum(xs[1..])
  }

  lemma {:induction false} SumAppend(a: seq<real>, b: seq<real>)
    ensures Sum(a + b) == Sum(a) + Sum(b)
  {
    if |a| == 0 {
      assert a + b == b;
    } else {
      assert (a + b)[1..] == a[1..] + b;
      SumAppend(a[1..], b);
    }
  }

  /** A column of non-negative values has a non-negative sum. */
  lemma {:induction false} SumNonNegative(xs: seq<real>)
    requires forall i :: 0 <= i < |xs| ==> xs[i] >= 0.0
    ensures Sum(xs) >= 0.0
  {
    if |xs| > 0 {
      SumNonNegative(xs[1..]);
    }
  }

  /** A non-negative column sums to zero exactly when every entry is zero. */
  lemma {:induction false} SumZeroIffAllZero(xs: seq<real>)
    requires forall i :: 0 <= i < |xs| ==> xs[i] >= 0.0
    ensures Sum(xs) == 0.0 <==> forall i :: 0 <= i < |xs| ==> xs[i] == 0.0
  {
    if |xs| > 0 {
      SumZeroIffAllZero(xs[1..]);
      SumNonNegative(xs[1..]);
      if Sum(xs) == 0.0 {
        forall i | 0 <= i < |xs| ensures xs[i] == 0.0 {
          if i > 0 {
            assert xs[i] == xs[1..][i - 1];
          }
        }
      } else {
        assert xs[0] != 0.0 || Sum(xs[1..]) != 0.0;
        if xs[0] == 0.0 {
          var j :| 0 <= j < |xs[1..]| && xs[1..][j] != 0.0;
          assert xs[j + 1] != 0.0;
        }
      }
    }
  }

  /** Every entry is at most `c`. */
  predicate AllAtMost(xs: seq<real>, c: real) {
    forall i :: 0 <= i < |xs| ==> xs[i] <= c
  }

  /** Every entry is at least `c`. */
  predicate AllAtLeast(xs: seq<real>, c: real) {
    forall i :: 0 <= i < |xs| ==> c <= xs[i]
  }

  /** An upper bound on every entry bounds the sum. */
  lemma {:induction false} SumAtMost(xs: seq<real>, hi: real)
    requires AllAtMost(xs, hi)
    ensures Sum(xs) <= |xs| as real * hi
  {
    if |xs| > 0 {
      assert AllAtMost(xs[1..], hi);
      SumAtMost(xs[1..], hi);
      assert |xs| as real * hi == |xs[1..]| as real * hi + hi;
    }
  }

  /** A lower bound on every entry bounds the sum. */
  lemma {:induction false} SumAtLeast(xs: seq<real>, lo: real)
    requires AllAtLeast(xs, lo)
    ensures |xs| as real * lo <= Sum(xs)
  {
    if |xs| > 0 {
      assert AllAtLeast(xs[1..], lo);
      SumAtLeast(xs[1..], lo);
      assert |xs| as real * lo == |xs[1..]| as real * lo + lo;
    }
  }

  /** A column computed row by row (`df[col] = f(row)`). */
  function Project<T>(s: seq<T>, f: T -> real): (r: seq<real>)
    ensures |r| == |s|
    ensures forall i :: 0 <= i < |s| ==> r[i] == f(s[i])
  {
    seq(|s|, i requires 0 <= i < |s| => f(s[i]))
  }

  lemma ProjectAppend<T>(a: seq<T>, b: seq<T>, f: T -> real)
    ensures Project(a + b, f) == Project(a, f) + Project(b, f)
  {
    assert Project(a + b, f) == Project(a, f) + Project(b, f);
  }

  /** The sum of a computed column, first entry split off. */
  lemma SumProjectCons<T>(s: seq<T>, f: T -> real)
    requires |s| > 0
    ensures Sum(Project(s, f)) == f(s[0]) + Sum(Project(s[1..], f))
  {
    assert Project(s, f)[1..] == Project(s[1..], f);
  }

  /** The running total `cumsum`: each entry adds the next value to the previous
      total, starting from `acc`. */
  function Scan(acc: real, xs: seq<real>): (r: seq<real>)
    ensures |r| == |xs|
    decreases |xs|
  {
    if |xs| == 0 then [] else [acc + xs[0]] + Scan(acc + xs[0], xs[1..])
  }

  /** Entry i of a scan from `acc` is `acc` plus the sum of entries 0..i. */
  lemma {:induction false} ScanIsRunningTotal(acc: real, xs: seq<real>)
    ensures forall i :: 0 <= i < |xs| ==> Scan(acc, xs)[i] == acc + Sum(xs[..i + 1])
    decreases |xs|
  {
    if |xs| > 0 {
      var r := Scan(acc, xs);
      var rest := Scan(acc + xs[0], xs[1..]);
      assert r == [acc + xs[0]] + rest;
      ScanIsRunningTotal(acc + xs[0], xs[1..]);
      forall i | 0 <= i < |xs|
        ensures r[i] == acc + Sum(xs[..i + 1])
      {
        assert xs[..i + 1][1..] == xs[1..][..i];
        assert Sum(xs[..i + 1]) == xs[0] + Sum(xs[1..][..i]);
        if i > 0 {
          assert r[i] == rest[i - 1];
        }
      }
    }
  }

  /** `Series.cumsum()`. */
  function PrefixSums(xs: seq<real>): (r: seq<real>)
    ensures |r| == |xs|
  {
    Scan(0.0, xs)
  }

  /** Entry i of `cumsum` is the sum of entries 0..i. */
  lemma PrefixSumsAreSums(xs: seq<real>)
    ensures forall i :: 0 <= i < |xs| ==> PrefixSums(xs)[i] == Sum(xs[..i + 1])
  {
    ScanIsRunningTotal(0.0, xs);
  }

  /** Running totals of non-negative values never decrease, and the last one is
      the column's sum. */
  lemma {:induction false} PrefixSumsMonotone(xs: seq<real>)
    requires forall i :: 0 <= i < |xs| ==> xs[i] >= 0.0
    ensures forall i, j :: 0 <= i <= j < |xs| ==> PrefixSums(xs)[i] <= PrefixSums(xs)[j]
    ensures |xs| > 0 ==> PrefixSums(xs)[|xs| - 1] == Sum(xs)
  {
    var r := PrefixSums(xs);
    PrefixSumsAreSums(xs);
    forall i, j | 0 <= i <= j < |xs|
      ensures r[i] <= r[j]
    {
      assert xs[..j + 1] == xs[..i + 1] + xs[i + 1..j + 1];
      SumAppend(xs[..i + 1], xs[i + 1..j + 1]);
      SumNonNegative(xs[i + 1..j + 1]);
    }
    if |xs| > 0 {
      assert xs[..|xs|] == xs;
    }
  }

  /** `m` is the arithmetic mean of a non-empty `xs`: `|xs|` copies of it add up
      to the total. Nothing is required of an empty list. */
  predicate IsMean(xs: seq<real>, m: real) {
    |xs| > 0 ==> m * |xs| as real == Sum(xs)
  }

  /** `np.mean`, with the source's fallback of 0 for an empty column: the mean
      lies between any lower and any upper bound of the entries. */
  function Mean(xs: seq<real>): (r: real)
    ensures |xs| == 0 ==> r == 0.0
    ensures IsMean(xs, r)
    ensures forall c :: AllAtMost(xs, c) && |xs| > 0 ==> r <= c
    ensures forall c :: AllAtLeast(xs, c) && |xs| > 0 ==> c <= r
  {
    if |xs| == 0 then 0.0
    else
      MeanBounds(xs);
      Sum(xs) / |xs| as real
  }

  lemma MeanBounds(xs: seq<real>)
    requires |xs| > 0
    ensures forall c :: AllAtMost(xs, c) ==> Sum(xs) / |xs| as real <= c
    ensures forall c :: AllAtLeast(xs, c) ==> c <= Sum(xs) / |xs| as real
  {
    var n := |xs| as real;
    forall c | AllAtMost(xs, c)
      ensures Sum(xs) / n <= c
    {
      SumAtMost(xs, c);
      assert Sum(xs) / n <= (n * c) / n;
    }
    forall c | AllAtLeast(xs, c)
      ensures c <= Sum(xs) / n
    {
      SumAtLeast(xs, c);
      assert (n * c) / n <= Sum(xs) / n;
    }
  }
}
