/** Reference definition of the sorted copy of a sequence, and of counting in it. */
module Sorting {

  ghost predicate Sorted(s: seq<int>) {
    forall i, j :: 0 <= i < j < |s| ==> s[i] <= s[j]
  }

  function Insert(x: int, s: seq<int>): (r: seq<int>)
    ensures multiset(r) == multiset(s) + multiset{x}
  {
    if s == [] || x <= s[0] then [x] + s
    else
      assert s == [s[0]] + s[1..];
      [s[0]] + Insert(x, s[1..])
  }

  lemma {:induction false} InsertSorted(x: int, s: seq<int>)
    requires Sorted(s)
    ensures Sorted(Insert(x, s))
  {
    if s != [] && x > s[0] {
      var t := Insert(x, s[1..]);
      InsertSorted(x, s[1..]);
      forall j | 0 <= j < |t|
        ensures s[0] <= t[j]
      {
        assert t[j] in multiset(s[1..]) + multiset{x};
      }
    }
  }

  function Sort(s: seq<int>): (r: seq<int>)
    ensures multiset(r) == multiset(s)
    ensures |r| == |s|
    ensures Sorted(r)
  {
    if s == [] then []
    else
      assert s == [s[0]] + s[1..];
      var t := Sort(s[1..]);
      InsertSorted(s[0], t);
      var r := Insert(s[0], t);
      assert |r| == |multiset(r)|;
      r
  }

  lemma LeastFirst(a: seq<int>, b: seq<int>)
    requires a != [] && b != [] && Sorted(a) && multiset(a) == multiset(b)
    ensures a[0] <= b[0]
  {
    assert b[0] in multiset(a);
  }

  /** Sortedness and the multiset of elements determine a sequence. */
  lemma {:induction false} SortedIsUnique(a: seq<int>, b: seq<int>)
    requires Sorted(a) && Sorted(b) && multiset(a) == multiset(b)
    ensures a == b
  {
    assert |a| == |multiset(a)| == |multiset(b)| == |b|;
    if a != [] {
      LeastFirst(a, b);
      LeastFirst(b, a);
      assert a == [a[0]] + a[1..] && b == [b[0]] + b[1..];
      assert multiset(a[1..]) == multiset(a) - multiset{a[0]};
      assert multiset(b[1..]) == multiset(b) - multiset{b[0]};
      SortedIsUnique(a[1..], b[1..]);
    }
  }

  /** How many elements lie outside the closed range [lo, hi]. */
  function Outside(s: seq<int>, lo: int, hi: int): (n: nat)
    ensures n <= |s|
  {
    if s == [] then 0
    else Outside(s[1..], lo, hi) + if lo <= s[0] <= hi then 0 else 1
  }

  lemma {:induction false} OutsideAppend(s: seq<int>, t: seq<int>, lo: int, hi: int)
    ensures Outside(s + t, lo, hi) == Outside(s, lo, hi) + Outside(t, lo, hi)
  {
    if s == [] {
      assert s + t == t;
    } else {
      assert (s + t)[1..] == s[1..] + t;
      OutsideAppend(s[1..], t, lo, hi);
    }
  }

  lemma {:induction false} OutsideInsert(x: int, s: seq<int>, lo: int, hi: int)
    ensures Outside(Insert(x, s), lo, hi) == Outside([x] + s, lo, hi)
  {
    assert ([x] + s)[1..] == s;
    if s != [] && x > s[0] {
      var t := Insert(x, s[1..]);
      assert ([s[0]] + t)[1..] == t;
      OutsideInsert(x, s[1..], lo, hi);
      assert ([x] + s[1..])[1..] == s[1..];
    }
  }

  lemma {:induction false} OutsideSort(s: seq<int>, lo: int, hi: int)
    ensures Outside(Sort(s), lo, hi) == Outside(s, lo, hi)
  {
    if s != [] {
      OutsideSort(s[1..], lo, hi);
      OutsideInsert(s[0], Sort(s[1..]), lo, hi);
      assert ([s[0]] + Sort(s[1..]))[1..] == Sort(s[1..]);
    }
  }

  lemma {:induction false} NoneOutside(s: seq<int>, lo: int, hi: int)
    requires forall i :: 0 <= i < |s| ==> lo <= s[i] <= hi
    ensures Outside(s, lo, hi) == 0
  {
    if s != [] {
      NoneOutside(s[1..], lo, hi);
    }
  }

  lemma {:induction false} AllOutside(s: seq<int>, lo: int, hi: int)
    requires forall i :: 0 <= i < |s| ==> s[i] < lo || s[i] > hi
    ensures Outside(s, lo, hi) == |s|
  {
    if s != [] {
      AllOutside(s[1..], lo, hi);
    }
  }
}
