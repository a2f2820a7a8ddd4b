/** Stable sorting and summation, the meaning of Python's `sorted(..., key=...)` and SQL's ORDER BY. */
module Sorting {
  ghost predicate TotalPreorder<T(!new)>(le: (T, T) -> bool) {
    && (forall x, y :: le(x, y) || le(y, x))
    && (forall x, y, z :: le(x, y) && le(y, z) ==> le(x, z))
  }

  ghost predicate Sorted<T>(s: seq<T>, le: (T, T) -> bool) {
    forall i, j :: 0 <= i < j < |s| ==> le(s[i], s[j])
  }

  // An element goes before the first one it is not above, so equal elements keep their order.
  function Insert<T>(x: T, s: seq<T>, le: (T, T) -> bool): seq<T> {
    if s == [] then [x]
    else if le(x, s[0]) then [x] + s
    else [s[0]] + Insert(x, s[1..], le)
  }

  function Sort<T>(s: seq<T>, le: (T, T) -> bool): seq<T> {
    if s == [] then [] else Insert(s[0], Sort(s[1..], le), le)
  }

  function Sum<T>(s: seq<T>, f: T -> nat): nat {
    if s == [] then 0 else f(s[0]) + Sum(s[1..], f)
  }

  lemma {:induction false} InsertContents<T>(x: T, s: seq<T>, le: (T, T) -> bool)
    ensures multiset(Insert(x, s, le)) == multiset{x} + multiset(s)
  {
    if s != [] {
      assert s == [s[0]] + s[1..];
      if !le(x, s[0]) {
        InsertContents(x, s[1..], le);
      }
    }
  }

  lemma {:induction false} SortContents<T>(s: seq<T>, le: (T, T) -> bool)
    ensures multiset(Sort(s, le)) == multiset(s)
  {
    if s != [] {
      SortContents(s[1..], le);
      InsertContents(s[0], Sort(s[1..], le), le);
      assert s == [s[0]] + s[1..];
    }
  }

  lemma {:induction false} InsertSorted<T(!new)>(x: T, s: seq<T>, le: (T, T) -> bool)
    requires TotalPreorder(le) && Sorted(s, le)
    ensures Sorted(Insert(x, s, le), le)
  {
    if s != [] && !le(x, s[0]) {
      InsertSorted(x, s[1..], le);
      var t := Insert(x, s[1..], le);
      InsertContents(x, s[1..], le);
      forall k | 0 <= k < |t| ensures le(s[0], t[k]) {
        assert t[k] in multiset(t);
        if t[k] != x {
          assert t[k] in multiset(s[1..]);
        }
      }
    }
  }

  lemma {:induction false} SortSorted<T(!new)>(s: seq<T>, le: (T, T) -> bool)
    requires TotalPreorder(le)
    ensures Sorted(Sort(s, le), le)
  {
    if s != [] {
      SortSorted(s[1..], le);
      InsertSorted(s[0], Sort(s[1..], le), le);
    }
  }

  lemma {:induction false} SumInsert<T>(x: T, s: seq<T>, le: (T, T) -> bool, f: T -> nat)
    ensures Sum(Insert(x, s, le), f) == f(x) + Sum(s, f)
  {
    if s != [] {
      if le(x, s[0]) {
        assert ([x] + s)[1..] == s;
      } else {
        SumInsert(x, s[1..], le, f);
        assert ([s[0]] + Insert(x, s[1..], le))[1..] == Insert(x, s[1..], le);
      }
    }
  }

  /** Sums do not depend on the order. */
  lemma {:induction false} SumSort<T>(s: seq<T>, le: (T, T) -> bool, f: T -> nat)
    ensures Sum(Sort(s, le), f) == Sum(s, f)
  {
    if s != [] {
      SumSort(s[1..], le, f);
      SumInsert(s[0], Sort(s[1..], le), le, f);
    }
  }

  lemma {:induction false} SumAppend<T>(s: seq<T>, t: seq<T>, f: T -> nat)
    ensures Sum(s + t, f) == Sum(s, f) + Sum(t, f)
  {
    if s == [] {
      assert s + t == t;
    } else {
      SumAppend(s[1..], t, f);
      assert (s + t)[1..] == s[1..] + t;
    }
  }

  function Places<T>(s: seq<T>, p: T -> bool): set<int> {
    set i | 0 <= i < |s| && p(s[i])
  }

  /** Summing a flag counts the places that have it. */
  lemma {:induction false} SumCounts<T>(s: seq<T>, p: T -> bool, f: T -> nat)
    requires forall x :: f(x) == if p(x) then 1 else 0
    ensures Sum(s, f) == |Places(s, p)|
  {
    if s != [] {
      var n := |s| - 1;
      SumCounts(s[..n], p, f);
      assert s == s[..n] + [s[n]];
      SumSnoc(s[..n], s[n], f);
      PlacesSnoc(s[..n], s[n], p);
    }
  }

  lemma PlacesSnoc<T>(s: seq<T>, x: T, p: T -> bool)
    ensures |Places(s + [x], p)| == |Places(s, p)| + if p(x) then 1 else 0
  {
    assert Places(s + [x], p) == if p(x) then Places(s, p) + {|s|} else Places(s, p);
  }

  lemma {:induction false} SumSnoc<T>(s: seq<T>, x: T, f: T -> nat)
    ensures Sum(s + [x], f) == Sum(s, f) + f(x)
  {
    SumAppend(s, [x], f);
    assert Sum([x], f) == f(x) + Sum([], f);
  }
}
