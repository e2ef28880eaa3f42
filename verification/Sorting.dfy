/** sort.Strings and sort.Slice: a sorted list is determined by its multiset, so the
    order in which a Go map hands out its keys cannot show in a sorted result. */
module Sorting {

  ghost predicate TotalOrder<T(!new)>(leq: (T, T) -> bool) {
    && (forall x, y :: leq(x, y) || leq(y, x))
    && (forall x, y :: leq(x, y) && leq(y, x) ==> x == y)
    && (forall x, y, z :: leq(x, y) && leq(y, z) ==> leq(x, z))
  }

  ghost predicate Sorted<T>(leq: (T, T) -> bool, s: seq<T>) {
    forall i, j :: 0 <= i < j < |s| ==> leq(s[i], s[j])
  }

  function Insert<T>(leq: (T, T) -> bool, x: T, s: seq<T>): seq<T> {
    if s == [] || leq(x, s[0]) then [x] + s else [s[0]] + Insert(leq, x, s[1..])
  }

  function Sort<T>(leq: (T, T) -> bool, s: seq<T>): seq<T> {
    if s == [] then [] else Insert(leq, s[0], Sort(leq, s[1..]))
  }

  lemma SortedHead<T(!new)>(leq: (T, T) -> bool, s: seq<T>)
    requires TotalOrder(leq) && s != []
    ensures Sorted(leq, s) <==> Sorted(leq, s[1..]) && forall x :: x in s ==> leq(s[0], x)
    ensures multiset(s) == multiset{s[0]} + multiset(s[1..])
  {
    assert s == [s[0]] + s[1..];
    assert leq(s[0], s[0]);
    if Sorted(leq, s) {
      forall x | x in s ensures leq(s[0], x) {
        var i :| 0 <= i < |s| && s[i] == x;
      }
    } else {
      var i, j :| 0 <= i < j < |s| && !leq(s[i], s[j]);
      if i > 0 {
        assert s[i] == s[1..][i - 1] && s[j] == s[1..][j - 1];
      }
    }
  }

  lemma {:induction false} InsertSorts<T(!new)>(leq: (T, T) -> bool, x: T, s: seq<T>)
    requires TotalOrder(leq) && Sorted(leq, s)
    ensures Sorted(leq, Insert(leq, x, s))
    ensures multiset(Insert(leq, x, s)) == multiset{x} + multiset(s)
  {
    var r := Insert(leq, x, s);
    if s == [] {
    } else {
      SortedHead(leq, s);
      if leq(x, s[0]) {
        assert r[1..] == s;
        assert forall y :: y in s ==> leq(x, y);
        assert leq(x, x);
      } else {
        InsertSorts(leq, x, s[1..]);
        var tail := Insert(leq, x, s[1..]);
        assert r[1..] == tail;
        InsertMembers(leq, x, s[1..]);
        assert leq(s[0], s[0]) && leq(s[0], x);
      }
      SortedHead(leq, r);
    }
  }

  lemma {:induction false} InsertMembers<T>(leq: (T, T) -> bool, x: T, s: seq<T>)
    ensures forall y :: y in Insert(leq, x, s) ==> y == x || y in s
  {
    if s != [] {
      InsertMembers(leq, x, s[1..]);
    }
  }

  lemma {:induction false} SortSorts<T(!new)>(leq: (T, T) -> bool, s: seq<T>)
    requires TotalOrder(leq)
    ensures Sorted(leq, Sort(leq, s)) && multiset(Sort(leq, s)) == multiset(s)
  {
    if s != [] {
      SortSorts(leq, s[1..]);
      InsertSorts(leq, s[0], Sort(leq, s[1..]));
      assert s == [s[0]] + s[1..];
    }
  }

  lemma {:induction false} SortedUnique<T(!new)>(leq: (T, T) -> bool, a: seq<T>, b: seq<T>)
    requires TotalOrder(leq) && Sorted(leq, a) && Sorted(leq, b)
    requires multiset(a) == multiset(b)
    ensures a == b
  {
    hide Sorted;
    assert |a| == |multiset(a)| == |b|;
    if a != [] {
      SortedHead(leq, a);
      SortedHead(leq, b);
      assert a[0] in multiset(b) && b[0] in multiset(a);
      assert b[0] in a && a[0] in b;
      assert leq(a[0], b[0]) && leq(b[0], a[0]);
      assert multiset(a[1..]) == multiset(a) - multiset{a[0]};
      assert multiset(b[1..]) == multiset(b) - multiset{b[0]};
      SortedUnique(leq, a[1..], b[1..]);
      assert a == [a[0]] + a[1..] && b == [b[0]] + b[1..];
    }
  }

  /** Sorting forgets exactly the order. */
  lemma SortEqualIff<T(!new)>(leq: (T, T) -> bool, a: seq<T>, b: seq<T>)
    requires TotalOrder(leq)
    ensures Sort(leq, a) == Sort(leq, b) <==> multiset(a) == multiset(b)
  {
    SortSorts(leq, a);
    SortSorts(leq, b);
    if multiset(a) == multiset(b) {
      SortedUnique(leq, Sort(leq, a), Sort(leq, b));
    }
  }
}
