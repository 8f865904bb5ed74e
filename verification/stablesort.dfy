/** A stable sort on a real-valued key: the model's deterministic reading of
    pandas `sort_values`, Python's `list.sort` and `sorted`. Elements with equal
    keys keep the order they had in the input. */
module StableSort {
  import opened Sums

  /** Keys never decrease along `s`. */
  predicate SortedBy<T>(s: seq<T>, key: T -> real) {
    forall i, j :: 0 <= i < j < |s| ==> key(s[i]) <= key(s[j])
  }

  /** The elements of `s` whose key is `k`, in their order in `s`. */
  function Select<T>(s: seq<T>, key: T -> real, k: real): seq<T> {
    if |s| == 0 then []
    else (if key(s[0]) == k then [s[0]] else []) + Select(s[1..], key, k)
  }

  lemma {:induction false} SelectAppend<T>(a: seq<T>, b: seq<T>, key: T -> real, k: real)
    ensures Select(a + b, key, k) == Select(a, key, k) + Select(b, key, k)
  {
    if |a| == 0 {
      assert a + b == b;
    } else {
      var head := if key(a[0]) == k then [a[0]] else [];
      assert (a + b)[0] == a[0];
      assert (a + b)[1..] == a[1..] + b;
      SelectAppend(a[1..], b, key, k);
      calc {
        Select(a + b, key, k);
        head + Select(a[1..] + b, key, k);
        head + (Select(a[1..], key, k) + Select(b, key, k));
        (head + Select(a[1..], key, k)) + Select(b, key, k);
        Select(a, key, k) + Select(b, key, k);
      }
    }
  }

  /** Places `x` after every element of `t` whose key is not greater than its own. */
  function Insert<T>(t: seq<T>, x: T, key: T -> real): (r: seq<T>)
    ensures |r| == |t| + 1
  {
    if |t| == 0 then [x]
    else if key(t[|t| - 1]) <= key(x) then t + [x]
    else Insert(t[..|t| - 1], x, key) + [t[|t| - 1]]
  }

  lemma {:induction false} InsertMultiset<T>(t: seq<T>, x: T, key: T -> real)
    ensures multiset(Insert(t, x, key)) == multiset(t) + multiset{x}
  {
    if |t| > 0 && key(t[|t| - 1]) > key(x) {
      InsertMultiset(t[..|t| - 1], x, key);
      assert t == t[..|t| - 1] + [t[|t| - 1]];
    }
  }

  lemma {:induction false} InsertSorted<T>(t: seq<T>, x: T, key: T -> real)
    requires SortedBy(t, key)
    ensures SortedBy(Insert(t, x, key), key)
  {
    if |t| > 0 && key(t[|t| - 1]) > key(x) {
      var init := t[..|t| - 1];
      var last := t[|t| - 1];
      InsertSorted(init, x, key);
      InsertMultiset(init, x, key);
      var u := Insert(init, x, key);
      forall i | 0 <= i < |u|
        ensures key(u[i]) <= key(last)
      {
        assert u[i] in multiset(u);
        if u[i] != x {
          assert u[i] in multiset(init);
          var m :| 0 <= m < |init| && init[m] == u[i];
          assert t[m] == init[m];
        }
      }
    }
  }

  /** Inserting `x` appends it to the group of its own key and leaves every other
      group untouched: the step that makes the sort stable. */
  lemma {:induction false} InsertSelect<T>(t: seq<T>, x: T, key: T -> real, k: real)
    ensures Select(Insert(t, x, key), key, k)
         == Select(t, key, k) + (if key(x) == k then [x] else [])
  {
    if |t| == 0 {
    } else if key(t[|t| - 1]) <= key(x) {
      SelectAppend(t, [x], key, k);
    } else {
      var init := t[..|t| - 1];
      var last := t[|t| - 1];
      var u := Insert(init, x, key);
      assert Insert(t, x, key) == u + [last];
      assert t == init + [last];
      InsertSelect(init, x, key, k);
      SelectAppend(u, [last], key, k);
      SelectAppend(init, [last], key, k);
      assert key(last) != k || key(x) != k;
    }
  }

  lemma {:induction false} InsertSum<T>(t: seq<T>, x: T, key: T -> real, f: T -> real)
    ensures Sum(Project(Insert(t, x, key), f)) == Sum(Project(t, f)) + f(x)
  {
    if |t| == 0 {
    } else if key(t[|t| - 1]) <= key(x) {
      assert Insert(t, x, key) == t + [x];
      SumSnoc(t, x, f);
    } else {
      var init := t[..|t| - 1];
      var last := t[|t| - 1];
      assert t == init + [last];
      InsertSum(init, x, key, f);
      SumSnoc(Insert(init, x, key), last, f);
      SumSnoc(init, last, f);
    }
  }

  lemma SumSnoc<T>(t: seq<T>, x: T, f: T -> real)
    ensures Sum(Project(t + [x], f)) == Sum(Project(t, f)) + f(x)
  {
    ProjectAppend(t, [x], f);
    assert Project([x], f) == [f(x)];
    SumAppend(Project(t, f), [f(x)]);
    assert Sum([f(x)]) == f(x) + Sum([]);
  }

  /** Stable insertion sort by `key`, ascending: each element of the input in
      turn is inserted after the sorted elements whose key is not greater. */
  function SortBy<T>(s: seq<T>, key: T -> real): (r: seq<T>)
    ensures |r| == |s|
  {
    if |s| == 0 then [] else Insert(SortBy(s[..|s| - 1], key), s[|s| - 1], key)
  }

  lemma SortByUnfold<T>(s: seq<T>, key: T -> real)
    requires |s| > 0
    ensures SortBy(s, key) == Insert(SortBy(s[..|s| - 1], key), s[|s| - 1], key)
  {
  }

  /** The sort is a permutation of its input. */
  lemma {:induction false} SortByPermutes<T>(s: seq<T>, key: T -> real)
    ensures multiset(SortBy(s, key)) == multiset(s)
  {
    if |s| > 0 {
      var init := s[..|s| - 1];
      var last := s[|s| - 1];
      SortByPermutes(init, key);
      SortByUnfold(s, key);
      InsertMultiset(SortBy(init, key), last, key);
      assert s == init + [last];
    }
  }

  /** The sort is in key order. */
  lemma {:induction false} SortBySorted<T>(s: seq<T>, key: T -> real)
    ensures SortedBy(SortBy(s, key), key)
  {
    if |s| > 0 {
      var init := s[..|s| - 1];
      SortBySorted(init, key);
      SortByUnfold(s, key);
      InsertSorted(SortBy(init, key), s[|s| - 1], key);
    }
  }

  /** The sort is stable: it lists each group of equal keys exactly as the input does. */
  lemma {:induction false} SortByStable<T>(s: seq<T>, key: T -> real, k: real)
    ensures Select(SortBy(s, key), key, k) == Select(s, key, k)
  {
    if |s| > 0 {
      var init := s[..|s| - 1];
      var last := s[|s| - 1];
      SortByStable(init, key, k);
      SortByUnfold(s, key);
      InsertSelect(SortBy(init, key), last, key, k);
      assert s == init + [last];
      SelectAppend(init, [last], key, k);
    }
  }

  /** The three properties together. */
  lemma SortByIsStableSort<T>(s: seq<T>, key: T -> real)
    ensures multiset(SortBy(s, key)) == multiset(s)
    ensures SortedBy(SortBy(s, key), key)
    ensures forall k :: Select(SortBy(s, key), key, k) == Select(s, key, k)
  {
    SortByPermutes(s, key);
    SortBySorted(s, key);
    forall k ensures Select(SortBy(s, key), key, k) == Select(s, key, k) {
      SortByStable(s, key, k);
    }
  }

  /** In a sorted sequence nothing after position `m` has a smaller key than
      anything before it. */
  lemma SortedSuffixAbove<T>(s: seq<T>, key: T -> real, m: nat, x: T)
    requires SortedBy(s, key) && m <= |s|
    requires x in multiset(s[m..])
    ensures forall i :: 0 <= i < m ==> key(s[i]) <= key(x)
  {
    var j :| 0 <= j < |s[m..]| && s[m..][j] == x;
    assert s[m + j] == x;
  }

  /** Sorting does not change the total of any column. */
  lemma {:induction false} SortBySum<T>(s: seq<T>, key: T -> real, f: T -> real)
    ensures Sum(Project(SortBy(s, key), f)) == Sum(Project(s, f))
  {
    if |s| > 0 {
      var init := s[..|s| - 1];
      var last := s[|s| - 1];
      SortBySum(init, key, f);
      SortByUnfold(s, key);
      InsertSum(SortBy(init, key), last, key, f);
      assert s == init + [last];
      SumSnoc(init, last, f);
    }
  }

  /** Sorting input that is already in key order changes nothing; in
      particular sorting is idempotent. */
  lemma {:induction false} SortBySortedIsIdentity<T>(s: seq<T>, key: T -> real)
    requires SortedBy(s, key)
    ensures SortBy(s, key) == s
  {
    if |s| > 0 {
      var init := s[..|s| - 1];
      assert SortedBy(init, key);
      SortBySortedIsIdentity(init, key);
      SortByUnfold(s, key);
      if |init| > 0 {
        assert key(init[|init| - 1]) <= key(s[|s| - 1]);
      }
      assert s == init + [s[|s| - 1]];
    }
  }

  lemma SortByIdempotent<T>(s: seq<T>, key: T -> real)
    ensures SortBy(SortBy(s, key), key) == SortBy(s, key)
  {
    SortBySorted(s, key);
    SortBySortedIsIdentity(SortBy(s, key), key);
  }
}
