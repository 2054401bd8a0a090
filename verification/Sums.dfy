/** Sums over lists: `iter().map(f).sum()`, and `filter`. */
module Sums {
  function SumBy<T>(f: T -> int, s: seq<T>): int {
    if s == [] then 0 else SumBy(f, s[..|s| - 1]) + f(s[|s| - 1])
  }

  function Filter<T>(p: T -> bool, s: seq<T>): seq<T> {
    if s == [] then []
    else Filter(p, s[..|s| - 1]) + if p(s[|s| - 1]) then [s[|s| - 1]] else []
  }

  lemma SumByOne<T>(f: T -> int, s: seq<T>, x: T)
    ensures SumBy(f, s + [x]) == SumBy(f, s) + f(x)
  {
    assert (s + [x])[..|s|] == s;
  }

  lemma FilterOne<T>(p: T -> bool, s: seq<T>, x: T)
    ensures Filter(p, s + [x]) == Filter(p, s) + if p(x) then [x] else []
  {
    assert (s + [x])[..|s|] == s;
  }

  lemma {:induction false} SumByAppend<T>(f: T -> int, s: seq<T>, t: seq<T>)
    ensures SumBy(f, s + t) == SumBy(f, s) + SumBy(f, t)
    decreases |t|
  {
    if t == [] {
      assert s + t == s;
    } else {
      var front, last := t[..|t| - 1], t[|t| - 1];
      SumByAppend(f, s, front);
      assert s + t == (s + front) + [last];
      SumByOne(f, s + front, last);
    }
  }

  lemma {:induction false} SumByPlus<T>(f: T -> int, g: T -> int, h: T -> int, s: seq<T>)
    requires forall x | x in s :: h(x) == f(x) + g(x)
    ensures SumBy(h, s) == SumBy(f, s) + SumBy(g, s)
  {
    if s != [] {
      SumByPlus(f, g, h, s[..|s| - 1]);
    }
  }

  lemma {:induction false} SumByScale<T>(k: int, f: T -> int, g: T -> int, s: seq<T>)
    requires forall x | x in s :: g(x) == k * f(x)
    ensures SumBy(g, s) == k * SumBy(f, s)
  {
    if s != [] {
      SumByScale(k, f, g, s[..|s| - 1]);
    }
  }

  lemma {:induction false} SumByAgree<T>(f: T -> int, g: T -> int, s: seq<T>)
    requires forall x | x in s :: f(x) == g(x)
    ensures SumBy(f, s) == SumBy(g, s)
  {
    if s != [] {
      SumByAgree(f, g, s[..|s| - 1]);
    }
  }

  lemma {:induction false} SumByRemove<T>(f: T -> int, s: seq<T>, i: nat)
    requires i < |s|
    ensures SumBy(f, s) == SumBy(f, s[..i] + s[i + 1..]) + f(s[i])
  {
    assert s == (s[..i] + [s[i]]) + s[i + 1..];
    SumByAppend(f, s[..i] + [s[i]], s[i + 1..]);
    SumByOne(f, s[..i], s[i]);
    SumByAppend(f, s[..i], s[i + 1..]);
  }

  /** The order of the summands does not matter. */
  lemma {:induction false} SumByPermutation<T>(f: T -> int, s: seq<T>, t: seq<T>)
    requires multiset(s) == multiset(t)
    ensures SumBy(f, s) == SumBy(f, t)
    decreases |s|
  {
    if s == [] {
      assert |multiset(t)| == 0;
    } else {
      var n, x := |s| - 1, s[|s| - 1];
      assert x in multiset(t);
      var i :| 0 <= i < |t| && t[i] == x;
      MultisetWithout(s, n);
      MultisetWithout(t, i);
      assert s[..n] + s[n + 1..] == s[..n];
      SumByPermutation(f, s[..n], t[..i] + t[i + 1..]);
      SumByRemove(f, t, i);
    }
  }

  lemma MultisetWithout<T>(s: seq<T>, i: nat)
    requires i < |s|
    ensures multiset(s[..i] + s[i + 1..]) == multiset(s) - multiset{s[i]}
  {
    assert s == s[..i] + [s[i]] + s[i + 1..];
  }

  /** Summing what a filter keeps is summing all, with nothing for the others. */
  lemma {:induction false} SumByFilter<T>(f: T -> int, p: T -> bool, g: T -> int, s: seq<T>)
    requires forall x | x in s :: g(x) == if p(x) then f(x) else 0
    ensures SumBy(f, Filter(p, s)) == SumBy(g, s)
  {
    if s != [] {
      var front, last := s[..|s| - 1], s[|s| - 1];
      assert last in s && forall x | x in front :: x in s;
      SumByFilter(f, p, g, front);
      assert s == front + [last];
      FilterOne(p, front, last);
      assert SumBy(g, s) == SumBy(g, front) + g(last);
      if p(last) {
        SumByOne(f, Filter(p, front), last);
        assert Filter(p, s) == Filter(p, front) + [last];
      } else {
        assert Filter(p, s) == Filter(p, front);
      }
    }
  }

  lemma {:induction false} FilterMembers<T>(p: T -> bool, s: seq<T>)
    ensures forall x :: x in Filter(p, s) <==> x in s && p(x)
  {
    if s != [] {
      FilterMembers(p, s[..|s| - 1]);
      assert s == s[..|s| - 1] + [s[|s| - 1]];
    }
  }

  lemma {:induction false} FilterNone<T>(p: T -> bool, s: seq<T>)
    requires forall x | x in s :: !p(x)
    ensures Filter(p, s) == []
  {
    if s != [] {
      FilterNone(p, s[..|s| - 1]);
    }
  }

  predicate IsDistinct<T(==)>(s: seq<T>) {
    forall i, j | 0 <= i < j < |s| :: s[i] != s[j]
  }

  lemma {:induction false} SumOfZero<T>(f: T -> int, s: seq<T>)
    requires forall x | x in s :: f(x) == 0
    ensures SumBy(f, s) == 0
  {
    if s != [] {
      SumOfZero(f, s[..|s| - 1]);
    }
  }

  /** Among distinct keys one key is met at most once. */
  lemma SumAtOneKey<K>(f: K -> int, keys: seq<K>, k: K)
    requires IsDistinct(keys) && forall l | l in keys && l != k :: f(l) == 0
    ensures SumBy(f, keys) == if k in keys then f(k) else 0
  {
    if k in keys {
      var i :| 0 <= i < |keys| && keys[i] == k;
      SumByRemove(f, keys, i);
      SumOfZero(f, keys[..i] + keys[i + 1..]);
    } else {
      SumOfZero(f, keys);
    }
  }

  /** What the elements with one key add up to. */
  function GroupSum<T, K(==)>(f: T -> int, key: T -> K, s: seq<T>, k: K): int {
    SumBy(x => if key(x) == k then f(x) else 0, s)
  }

  /** Adding up group by group is adding up everything, as soon as every element that
      counts has its key on the list, and no key is there twice. */
  lemma {:induction false} SumByGroups<T, K>(f: T -> int, key: T -> K, keys: seq<K>, s: seq<T>)
    requires IsDistinct(keys) && forall x | x in s && f(x) != 0 :: key(x) in keys
    ensures SumBy(k => GroupSum(f, key, s, k), keys) == SumBy(f, s)
  {
    if s == [] {
      SumOfZero(k => GroupSum(f, key, s, k), keys);
    } else {
      var front, last := s[..|s| - 1], s[|s| - 1];
      SumByGroups(f, key, keys, front);
      var before, one := k => GroupSum(f, key, front, k), k => if key(last) == k then f(last) else 0;
      SumAtOneKey(one, keys, key(last));
      assert last in s;
      SumByPlus(before, one, k => GroupSum(f, key, s, k), keys);
    }
  }

  lemma GroupSumOne<T, K>(f: T -> int, key: T -> K, s: seq<T>, x: T, k: K)
    ensures GroupSum(f, key, s + [x], k) == GroupSum(f, key, s, k) + if key(x) == k then f(x) else 0
  {
    SumByOne(y => if key(y) == k then f(y) else 0, s, x);
  }

  lemma {:induction false} GroupSumAgree<T, K>(f: T -> int, g: T -> int, key: T -> K, s: seq<T>, k: K)
    requires forall x | x in s && key(x) == k :: f(x) == g(x)
    ensures GroupSum(f, key, s, k) == GroupSum(g, key, s, k)
  {
    if s != [] {
      var front, last := s[..|s| - 1], s[|s| - 1];
      GroupSumAgree(f, g, key, front, k);
      assert s == front + [last];
      GroupSumOne(f, key, front, last, k);
      GroupSumOne(g, key, front, last, k);
    }
  }

  lemma {:induction false} GroupSumZero<T, K>(f: T -> int, key: T -> K, s: seq<T>, k: K)
    requires forall x | x in s && key(x) == k :: f(x) == 0
    ensures GroupSum(f, key, s, k) == 0
  {
    if s != [] {
      var front, last := s[..|s| - 1], s[|s| - 1];
      GroupSumZero(f, key, front, k);
      assert s == front + [last];
      GroupSumOne(f, key, front, last, k);
    }
  }

  /** A group's sum is the sum over the group. */
  lemma {:induction false} GroupSumIsFiltered<T, K>(f: T -> int, key: T -> K, p: T -> bool, s: seq<T>, k: K)
    requires forall x | x in s :: p(x) <==> key(x) == k
    ensures GroupSum(f, key, s, k) == SumBy(f, Filter(p, s))
  {
    if s != [] {
      var front, last := s[..|s| - 1], s[|s| - 1];
      GroupSumIsFiltered(f, key, p, front, k);
      assert s == front + [last];
      GroupSumOne(f, key, front, last, k);
      if p(last) {
        SumByOne(f, Filter(p, front), last);
      } else {
        assert Filter(p, front) + [] == Filter(p, front);
      }
    }
  }
}
