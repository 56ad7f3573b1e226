/** The array built-ins the application leans on: `Array.prototype.filter`,
    `findIndex`/`find` by a key, and `splice(i, 1)`. */
module Seqs {
  import opened Wrappers

  /** `s.filter(p)`. */
  function Filter<T>(s: seq<T>, p: T -> bool): (r: seq<T>)
    ensures |r| <= |s|
    ensures forall x :: x in r ==> x in s && p(x)
  {
    if s == [] then [] else (if p(s[0]) then [s[0]] else []) + Filter(s[1..], p)
  }

  /** `r` can be obtained from `s` by deleting elements, keeping the order. */
  ghost predicate IsSubsequence<T>(r: seq<T>, s: seq<T>)
    decreases |s|
  {
    if r == [] then true
    else if s == [] then false
    else (r[0] == s[0] && IsSubsequence(r[1..], s[1..])) || IsSubsequence(r, s[1..])
  }

  lemma {:induction false} FilterIsSubsequence<T>(s: seq<T>, p: T -> bool)
    ensures IsSubsequence(Filter(s, p), s)
  {
    if s != [] {
      FilterIsSubsequence(s[1..], p);
      if p(s[0]) {
        var r := Filter(s, p);
        assert r[0] == s[0] && r[1..] == Filter(s[1..], p);
      } else {
        assert Filter(s, p) == Filter(s[1..], p);
      }
    }
  }

  /** Every element that passes `p` is kept as often as it occurs, every other one is dropped. */
  lemma {:induction false} FilterMultiplicity<T>(s: seq<T>, p: T -> bool, x: T)
    ensures multiset(Filter(s, p))[x] == if p(x) then multiset(s)[x] else 0
  {
    if s != [] {
      FilterMultiplicity(s[1..], p, x);
      assert s == [s[0]] + s[1..];
      assert multiset(s) == multiset{s[0]} + multiset(s[1..]);
      var head := if p(s[0]) then [s[0]] else [];
      assert multiset(Filter(s, p)) == multiset(head) + multiset(Filter(s[1..], p));
    }
  }

  /** An element of `s` that passes `p` survives the filter. */
  lemma FilterKeeps<T>(s: seq<T>, p: T -> bool, i: nat)
    requires i < |s| && p(s[i])
    ensures s[i] in Filter(s, p)
  {
    FilterMultiplicity(s, p, s[i]);
    assert s[i] in multiset(s);
  }

  /** When every element passes, the filter is the identity. */
  lemma {:induction false} FilterAll<T>(s: seq<T>, p: T -> bool)
    requires forall i :: 0 <= i < |s| ==> p(s[i])
    ensures Filter(s, p) == s
  {
    if s != [] {
      FilterAll(s[1..], p);
    }
  }

  /** When no element passes, the filter is empty. */
  lemma {:induction false} FilterNone<T>(s: seq<T>, p: T -> bool)
    requires forall i :: 0 <= i < |s| ==> !p(s[i])
    ensures Filter(s, p) == []
  {
    if s != [] {
      FilterNone(s[1..], p);
    }
  }

  /** Filtering a concatenation filters each part. */
  lemma {:induction false} FilterAppend<T>(a: seq<T>, b: seq<T>, p: T -> bool)
    ensures Filter(a + b, p) == Filter(a, p) + Filter(b, p)
  {
    if a == [] {
      assert a + b == b;
    } else {
      var head := if p(a[0]) then [a[0]] else [];
      FilterAppend(a[1..], b, p);
      assert (a + b)[0] == a[0] && (a + b)[1..] == a[1..] + b;
      assert Filter(a + b, p) == head + Filter(a[1..] + b, p);
      assert Filter(a, p) == head + Filter(a[1..], p);
    }
  }

  /** A list built by applying `f` to each element that passes `p` holds
      exactly the images of the passing elements. */
  lemma MapFilterExact<T, U>(s: seq<T>, p: T -> bool, f: T -> U, r: seq<U>, b: U)
    requires |r| == |Filter(s, p)|
    requires forall k :: 0 <= k < |r| ==> r[k] == f(Filter(s, p)[k])
    ensures b in r <==> exists i :: 0 <= i < |s| && p(s[i]) && b == f(s[i])
  {
    var kept := Filter(s, p);
    if b in r {
      var k :| 0 <= k < |r| && r[k] == b;
      assert kept[k] in kept;
      var i :| 0 <= i < |s| && s[i] == kept[k];
      assert p(s[i]) && b == f(s[i]);
    } else {
      forall i | 0 <= i < |s| && p(s[i]) ensures b != f(s[i]) {
        FilterKeeps(s, p, i);
        var k :| 0 <= k < |kept| && kept[k] == s[i];
        assert r[k] == f(s[i]);
      }
    }
  }

  /** No element occurs twice. */
  predicate NoDup<T(==)>(s: seq<T>) {
    forall i, j :: 0 <= i < j < |s| ==> s[i] != s[j]
  }

  /** Filtering a duplicate-free sequence leaves it duplicate-free. */
  lemma {:induction false} FilterNoDup<T>(s: seq<T>, p: T -> bool)
    requires NoDup(s)
    ensures NoDup(Filter(s, p))
  {
    if s != [] {
      var t := Filter(s[1..], p);
      FilterNoDup(s[1..], p);
      if p(s[0]) {
        assert s[0] !in s[1..];
        assert s[0] !in t;
        var r := Filter(s, p);
        assert r == [s[0]] + t;
        forall i, j | 0 <= i < j < |r|
          ensures r[i] != r[j]
        {
          if i == 0 {
            assert r[j] == t[j - 1];
          } else {
            assert r[i] == t[i - 1] && r[j] == t[j - 1];
          }
        }
      }
    }
  }

  /** `s.findIndex(x => key(x) === k)`: the first index whose key is `k`, or -1. */
  function IndexOfKey<T>(s: seq<T>, key: T -> Option<string>, k: string): (r: int)
    ensures -1 <= r < |s|
    ensures r == -1 <==> forall i :: 0 <= i < |s| ==> key(s[i]) != Some(k)
    ensures r >= 0 ==> key(s[r]) == Some(k) && forall j :: 0 <= j < r ==> key(s[j]) != Some(k)
  {
    if s == [] then -1
    else if key(s[0]) == Some(k) then 0
    else
      var i := IndexOfKey(s[1..], key, k);
      if i == -1 then -1 else i + 1
  }

  /** The first position holding the key is the one found. */
  lemma IndexOfKeyAt<T>(s: seq<T>, key: T -> Option<string>, k: string, i: nat)
    requires i < |s| && key(s[i]) == Some(k)
    requires forall j :: 0 <= j < i ==> key(s[j]) != Some(k)
    ensures IndexOfKey(s, key, k) == i
  {
  }

  /** `s.splice(i, 1)` applied to a copy. */
  function RemoveAt<T>(s: seq<T>, i: nat): (r: seq<T>)
    requires i < |s|
    ensures |r| == |s| - 1
    ensures forall j :: 0 <= j < i ==> r[j] == s[j]
    ensures forall j :: i <= j < |r| ==> r[j] == s[j + 1]
    ensures multiset(r) + multiset{s[i]} == multiset(s)
  {
    assert s == s[..i] + [s[i]] + s[i + 1..];
    s[..i] + s[i + 1..]
  }
}
