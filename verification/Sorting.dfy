/** `sort_by_key`: a stable sort, as insertion from the back. */
module Sorting {
  ghost predicate TotalPreorder<T(!new)>(le: (T, T) -> bool) {
    && (forall a, b :: le(a, b) || le(b, a))
    && (forall a, b, c :: le(a, b) && le(b, c) ==> le(a, c))
  }

  ghost predicate SortedBy<T>(le: (T, T) -> bool, s: seq<T>) {
    forall i, j | 0 <= i < j < |s| :: le(s[i], s[j])
  }

  /** Elements with the same key are the same element. */
  ghost predicate KeysIdentify<T>(le: (T, T) -> bool, s: seq<T>) {
    forall a, b | a in s && b in s && le(a, b) && le(b, a) :: a == b
  }

  function Insert<T>(le: (T, T) -> bool, x: T, s: seq<T>): seq<T> {
    if s == [] || le(x, s[0]) then [x] + s else [s[0]] + Insert(le, x, s[1..])
  }

  function Sort<T>(le: (T, T) -> bool, s: seq<T>): seq<T> {
    if s == [] then [] else Insert(le, s[0], Sort(le, s[1..]))
  }

  lemma SortOfTwo<T>(le: (T, T) -> bool, a: T, b: T)
    ensures Sort(le, [a, b]) == if le(a, b) then [a, b] else [b, a]
  {
    assert [a, b][1..] == [b] && [b][1..] == [];
    assert Insert(le, a, []) == [a] && Insert(le, b, []) == [b] && Sort(le, []) == [];
    assert Sort(le, [a, b]) == Insert(le, a, [b]);
  }

  lemma ConsIsSorted<T(!new)>(le: (T, T) -> bool, x: T, s: seq<T>)
    requires SortedBy(le, s) && forall y | y in s :: le(x, y)
    ensures SortedBy(le, [x] + s)
  {
  }

  lemma HeadIsLeast<T(!new)>(le: (T, T) -> bool, x: T, s: seq<T>)
    requires TotalPreorder(le) && SortedBy(le, s) && s != [] && le(x, s[0])
    ensures forall y | y in s :: le(x, y)
  {
    assert le(s[0], s[0]);
  }

  lemma InsertedIsAbove<T(!new)>(le: (T, T) -> bool, low: T, x: T, s: seq<T>, t: seq<T>)
    requires le(low, x) && multiset(t) == multiset(s) + multiset{x}
    requires forall y | y in s :: le(low, y)
    ensures forall y | y in t :: le(low, y)
  {
    forall y | y in t ensures y in s || y == x {
      assert y in multiset(t);
    }
  }

  lemma {:induction false} InsertIsSorted<T(!new)>(le: (T, T) -> bool, x: T, s: seq<T>)
    requires TotalPreorder(le) && SortedBy(le, s)
    ensures SortedBy(le, Insert(le, x, s))
    ensures multiset(Insert(le, x, s)) == multiset(s) + multiset{x}
  {
    if s == [] {
    } else if le(x, s[0]) {
      HeadIsLeast(le, x, s);
      ConsIsSorted(le, x, s);
    } else {
      assert le(s[0], x) && le(s[0], s[0]);
      HeadIsLeast(le, s[0], s);
      hide TotalPreorder, SortedBy;
      assert s == [s[0]] + s[1..];
      var t := Insert(le, x, s[1..]);
      TailOf(le, s);
      InsertIsSorted(le, x, s[1..]);
      InsertedIsAbove(le, s[0], x, s[1..], t);
      ConsIsSorted(le, s[0], t);
    }
  }

  lemma {:induction false} SortIsSorted<T(!new)>(le: (T, T) -> bool, s: seq<T>)
    requires TotalPreorder(le)
    ensures SortedBy(le, Sort(le, s))
    ensures multiset(Sort(le, s)) == multiset(s)
    ensures |Sort(le, s)| == |s|
  {
    if s != [] {
      SortIsSorted(le, s[1..]);
      InsertIsSorted(le, s[0], Sort(le, s[1..]));
      assert s == [s[0]] + s[1..];
    }
    assert |multiset(Sort(le, s))| == |multiset(s)|;
  }

  lemma FirstsAgree<T(!new)>(le: (T, T) -> bool, s: seq<T>, t: seq<T>)
    requires s != [] && multiset(s) == multiset(t)
    requires SortedBy(le, s) && SortedBy(le, t)
    requires KeysIdentify(le, s)
    requires forall x :: le(x, x)
    ensures t != [] && s[0] == t[0]
  {
    assert s[0] in multiset(t) && s[0] in t;
    assert t[0] in multiset(s) && t[0] in s;
    var i :| 0 <= i < |t| && t[i] == s[0];
    var j :| 0 <= j < |s| && s[j] == t[0];
    assert le(t[0], t[i]) && le(s[0], s[j]);
  }

  lemma TailOf<T(!new)>(le: (T, T) -> bool, s: seq<T>)
    requires s != []
    ensures multiset(s[1..]) == multiset(s) - multiset{s[0]}
    ensures SortedBy(le, s) ==> SortedBy(le, s[1..])
  {
    assert s == [s[0]] + s[1..];
  }

  /** There is only one way to sort elements whose keys identify them. */
  lemma TailIdentifies<T>(le: (T, T) -> bool, s: seq<T>)
    requires s != [] && KeysIdentify(le, s)
    ensures KeysIdentify(le, s[1..])
  {
    assert forall x | x in s[1..] :: x in s;
  }

  lemma {:induction false} SortedIsUnique<T(!new)>(le: (T, T) -> bool, s: seq<T>, t: seq<T>)
    requires multiset(s) == multiset(t)
    requires SortedBy(le, s) && SortedBy(le, t)
    requires KeysIdentify(le, s)
    requires forall x :: le(x, x)
    ensures s == t
  {
    if s == [] {
      assert |multiset(t)| == 0;
    } else {
      FirstsAgree(le, s, t);
      TailOf(le, s);
      TailOf(le, t);
      assert multiset(s[1..]) == multiset(t[1..]);
      TailIdentifies(le, s);
      hide SortedBy, KeysIdentify;
      SortedIsUnique(le, s[1..], t[1..]);
      assert s == [s[0]] + s[1..] && t == [t[0]] + t[1..];
    }
  }

  /** Sorting forgets the input order. */
  lemma SortOfPermutation<T(!new)>(le: (T, T) -> bool, s: seq<T>, t: seq<T>)
    requires TotalPreorder(le) && multiset(s) == multiset(t) && KeysIdentify(le, s)
    ensures Sort(le, s) == Sort(le, t)
  {
    SortIsSorted(le, s);
    SortIsSorted(le, t);
    forall x | x in Sort(le, s) ensures x in s {
      assert x in multiset(Sort(le, s));
    }
    SortedIsUnique(le, Sort(le, s), Sort(le, t));
  }
}
