/** `Array.prototype.filter`, and duplicate-freedom of a list. */
module Seqs {

  /** `s.filter(p)`: the elements satisfying `p`, in their original order. */
  function Filter<T(==)>(s: seq<T>, p: T -> bool): (r: seq<T>)
    ensures |r| <= |s|
    ensures forall i :: 0 <= i < |r| ==> r[i] in s && p(r[i])
    ensures forall i :: 0 <= i < |s| && p(s[i]) ==> s[i] in r
  {
    if s == [] then [] else (if p(s[0]) then [s[0]] else []) + Filter(s[1..], p)
  }

  predicate NoDup<T(==)>(s: seq<T>) {
    forall i, j :: 0 <= i < j < |s| ==> s[i] != s[j]
  }

  /** `x` occurs in `s` at an earlier position than `y`. */
  predicate Before<T(==)>(s: seq<T>, x: T, y: T) {
    exists a, b :: 0 <= a < b < |s| && s[a] == x && s[b] == y
  }

  /** Any two elements of `r` appear in `s` in the same order. */
  predicate KeepsOrder<T(==)>(r: seq<T>, s: seq<T>) {
    forall i, j :: 0 <= i < j < |r| ==> Before(s, r[i], r[j])
  }

  /** Order within the tail of `s` is order within `s`. */
  lemma BeforeTail<T>(s: seq<T>, x: T, y: T)
    requires s != [] && Before(s[1..], x, y)
    ensures Before(s, x, y)
  {
    var a, b :| 0 <= a < b < |s[1..]| && s[1..][a] == x && s[1..][b] == y;
    assert s[a + 1] == x && s[b + 1] == y;
  }

  /** Order kept within the tail of `s` is kept within `s`. */
  lemma KeepsOrderTail<T>(t: seq<T>, s: seq<T>)
    requires s != [] && KeepsOrder(t, s[1..])
    ensures KeepsOrder(t, s)
  {
    forall i, j | 0 <= i < j < |t| ensures Before(s, t[i], t[j]) {
      BeforeTail(s, t[i], t[j]);
    }
  }

  /** Putting the head of `s` in front of an ordered list drawn from the tail keeps the order. */
  lemma KeepsOrderCons<T>(t: seq<T>, s: seq<T>)
    requires s != [] && KeepsOrder(t, s[1..])
    requires forall k :: 0 <= k < |t| ==> t[k] in s[1..]
    ensures KeepsOrder([s[0]] + t, s)
  {
    var r := [s[0]] + t;
    forall i, j | 0 <= i < j < |r| ensures Before(s, r[i], r[j]) {
      if i == 0 {
        assert r[j] == t[j - 1] && t[j - 1] in s[1..];
        var k :| 0 <= k < |s[1..]| && s[1..][k] == t[j - 1];
        assert s[0] == r[0] && s[k + 1] == r[j];
      } else {
        assert r[i] == t[i - 1] && r[j] == t[j - 1];
        BeforeTail(s, t[i - 1], t[j - 1]);
      }
    }
  }

  /** Filtering keeps the order of the list. */
  lemma {:induction false} FilterKeepsOrder<T>(s: seq<T>, p: T -> bool)
    ensures KeepsOrder(Filter(s, p), s)
  {
    if s != [] {
      var t := Filter(s[1..], p);
      FilterKeepsOrder(s[1..], p);
      if p(s[0]) {
        assert Filter(s, p) == [s[0]] + t;
        KeepsOrderCons(t, s);
      } else {
        assert Filter(s, p) == t;
        KeepsOrderTail(t, s);
      }
    }
  }

  /** A list whose order `r` keeps is non-increasing in `key` only if `r` is. */
  lemma KeepsOrderDescending<T>(r: seq<T>, s: seq<T>, key: T -> int)
    requires KeepsOrder(r, s)
    requires forall i, j :: 0 <= i < j < |s| ==> key(s[i]) >= key(s[j])
    ensures forall i, j :: 0 <= i < j < |r| ==> key(r[i]) >= key(r[j])
  {
    forall i, j | 0 <= i < j < |r| ensures key(r[i]) >= key(r[j]) {
      assert Before(s, r[i], r[j]);
      var a, b :| 0 <= a < b < |s| && s[a] == r[i] && s[b] == r[j];
    }
  }

  /** Filtering keeps a list free of duplicates. */
  lemma {:induction false} FilterNoDup<T>(s: seq<T>, p: T -> bool)
    requires NoDup(s)
    ensures NoDup(Filter(s, p))
  {
    if s != [] {
      FilterNoDup(s[1..], p);
      assert s[0] !in s[1..] by {
        forall j | 0 <= j < |s[1..]| ensures s[1..][j] != s[0] { assert s[1..][j] == s[j + 1]; }
      }
    }
  }

  /** Filtering twice by the same test changes nothing. */
  lemma {:induction false} FilterIdempotent<T>(s: seq<T>, p: T -> bool)
    ensures Filter(Filter(s, p), p) == Filter(s, p)
  {
    if s != [] {
      FilterIdempotent(s[1..], p);
      var r := Filter(s, p);
      if p(s[0]) {
        assert r == [s[0]] + Filter(s[1..], p);
        assert r[0] == s[0] && r[1..] == Filter(s[1..], p);
      } else {
        assert r == Filter(s[1..], p);
      }
    }
  }

  /** Filtering distributes over concatenation, so it keeps the original order. */
  lemma {:induction false} FilterConcat<T>(s: seq<T>, t: seq<T>, p: T -> bool)
    ensures Filter(s + t, p) == Filter(s, p) + Filter(t, p)
  {
    if s != [] {
      assert (s + t)[1..] == s[1..] + t;
      FilterConcat(s[1..], t, p);
    } else {
      assert s + t == t;
    }
  }

  /** Two tests that agree on every element filter alike. */
  lemma {:induction false} FilterCongruent<T>(s: seq<T>, p: T -> bool, q: T -> bool)
    requires forall i :: 0 <= i < |s| ==> p(s[i]) == q(s[i])
    ensures Filter(s, p) == Filter(s, q)
  {
    if s != [] {
      FilterCongruent(s[1..], p, q);
    }
  }

  /** A test every element passes keeps the whole list. */
  lemma {:induction false} FilterAll<T>(s: seq<T>, p: T -> bool)
    requires forall i :: 0 <= i < |s| ==> p(s[i])
    ensures Filter(s, p) == s
  {
    if s != [] {
      FilterAll(s[1..], p);
    }
  }

  /** Filtering by `p` and then by `q` is filtering by both. */
  lemma {:induction false} FilterFilter<T>(s: seq<T>, p: T -> bool, q: T -> bool)
    ensures Filter(Filter(s, p), q) == Filter(s, (x: T) => p(x) && q(x))
  {
    if s != [] {
      FilterFilter(s[1..], p, q);
      var r := Filter(s, p);
      if p(s[0]) {
        assert r == [s[0]] + Filter(s[1..], p);
        assert r[0] == s[0] && r[1..] == Filter(s[1..], p);
      } else {
        assert r == Filter(s[1..], p);
      }
    }
  }
}
