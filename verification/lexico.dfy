/** The ordering Python uses for `str` keys: lexicographic by code point.
    pandas `groupby` emits its keys in this order. */
module Lexico {

  /** `a < b` on Python strings. */
  predicate StrLt(a: string, b: string)
    decreases |a|
  {
    if |a| == 0 then |b| > 0
    else if |b| == 0 then false
    else if a[0] != b[0] then a[0] < b[0]
    else StrLt(a[1..], b[1..])
  }

  lemma {:induction false} StrLtIrreflexive(a: string)
    ensures !StrLt(a, a)
    decreases |a|
  {
    if |a| > 0 {
      StrLtIrreflexive(a[1..]);
    }
  }

  lemma {:induction false} StrLtAsymmetric(a: string, b: string)
    ensures !(StrLt(a, b) && StrLt(b, a))
    decreases |a|
  {
    if |a| > 0 && |b| > 0 && a[0] == b[0] {
      StrLtAsymmetric(a[1..], b[1..]);
    }
  }

  lemma {:induction false} StrLtTransitive(a: string, b: string, c: string)
    requires StrLt(a, b) && StrLt(b, c)
    ensures StrLt(a, c)
    decreases |a|
  {
    if |a| > 0 && a[0] == b[0] && b[0] == c[0] {
      StrLtTransitive(a[1..], b[1..], c[1..]);
    }
  }

  /** Two different strings are always comparable. */
  lemma {:induction false} StrLtTotal(a: string, b: string)
    requires a != b
    ensures StrLt(a, b) || StrLt(b, a)
    decreases |a|
  {
    if |a| > 0 && |b| > 0 && a[0] == b[0] {
      assert a == [a[0]] + a[1..] && b == [b[0]] + b[1..];
      StrLtTotal(a[1..], b[1..]);
    }
  }

  /** Keys listed in strictly increasing order: the shape of a pandas group index. */
  predicate StrictlySorted(ks: seq<string>) {
    forall i, j :: 0 <= i < j < |ks| ==> StrLt(ks[i], ks[j])
  }

  /** Adds `k` to a strictly sorted key list, keeping it strictly sorted. */
  function InsertKey(ks: seq<string>, k: string): (r: seq<string>)
    requires StrictlySorted(ks)
    ensures StrictlySorted(r)
    ensures forall x :: x in r <==> x in ks || x == k
    ensures k in ks ==> r == ks
  {
    if |ks| == 0 then [k]
    else if ks[0] == k then ks
    else if StrLt(k, ks[0]) then
      InsertKeyFront(ks, k);
      [k] + ks
    else
      var tail := InsertKey(ks[1..], k);
      StrLtTotal(k, ks[0]);
      InsertKeyBelow(ks, k, tail);
      [ks[0]] + tail
  }

  lemma InsertKeyFront(ks: seq<string>, k: string)
    requires StrictlySorted(ks) && |ks| > 0 && StrLt(k, ks[0])
    ensures StrictlySorted([k] + ks)
    ensures k !in ks
  {
    if k in ks {
      var m :| 0 <= m < |ks| && ks[m] == k;
      if m == 0 {
        StrLtIrreflexive(k);
      } else {
        StrLtAsymmetric(k, ks[0]);
      }
    }
    forall j | 1 <= j < |ks| + 1
      ensures StrLt(k, ([k] + ks)[j])
    {
      if j > 1 {
        StrLtTransitive(k, ks[0], ks[j - 1]);
      }
    }
  }

  lemma InsertKeyBelow(ks: seq<string>, k: string, tail: seq<string>)
    requires StrictlySorted(ks) && |ks| > 0 && StrLt(ks[0], k)
    requires StrictlySorted(tail)
    requires forall x :: x in tail <==> x in ks[1..] || x == k
    ensures StrictlySorted([ks[0]] + tail)
  {
    forall j | 0 <= j < |tail|
      ensures StrLt(ks[0], tail[j])
    {
      assert tail[j] in tail;
      if tail[j] != k {
        var m :| 0 <= m < |ks[1..]| && ks[1..][m] == tail[j];
        assert ks[m + 1] == tail[j];
      }
    }
  }
}
