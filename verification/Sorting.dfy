/** Library sorting and collecting, described by what they guarantee. */
module Sorting {
  import opened Wrappers

  ghost predicate TotalOrder<T(!new)>(noLater: (T, T) -> bool) {
    && (forall a, b :: noLater(a, b) || noLater(b, a))
    && (forall a, b, c :: noLater(a, b) && noLater(b, c) ==> noLater(a, c))
  }

  ghost predicate InOrder<T>(noLater: (T, T) -> bool, s: seq<T>) {
    forall i, j | 0 <= i < j < |s| :: noLater(s[i], s[j])
  }

  function Insert<T>(noLater: (T, T) -> bool, x: T, s: seq<T>): (r: seq<T>) {
    if s == [] || noLater(x, s[0]) then [x] + s else [s[0]] + Insert(noLater, x, s[1..])
  }

  function Sort<T>(noLater: (T, T) -> bool, s: seq<T>): (r: seq<T>) {
    if s == [] then [] else Insert(noLater, s[0], Sort(noLater, s[1..]))
  }

  lemma {:induction false} SmallestInFront<T(!new)>(noLater: (T, T) -> bool, first: T, rest: seq<T>)
    requires InOrder(noLater, rest) && forall j | 0 <= j < |rest| :: noLater(first, rest[j])
    ensures InOrder(noLater, [first] + rest) && multiset([first] + rest) == multiset{first} + multiset(rest)
  {}

  lemma {:induction false} InsertSorts<T(!new)>(noLater: (T, T) -> bool, x: T, s: seq<T>)
    requires TotalOrder(noLater) && InOrder(noLater, s)
    ensures InOrder(noLater, Insert(noLater, x, s))
    ensures multiset(Insert(noLater, x, s)) == multiset{x} + multiset(s)
  {
    if s == [] || noLater(x, s[0]) {
    } else {
      InsertSorts(noLater, x, s[1..]);
      assert s == [s[0]] + s[1..];
      var rest := Insert(noLater, x, s[1..]);
      forall j | 0 <= j < |rest| ensures noLater(s[0], rest[j]) {
        assert rest[j] in multiset(rest);
        if rest[j] != x { assert rest[j] in multiset(s[1..]); }
      }
      hide InOrder;
      SmallestInFront(noLater, s[0], rest);
    }
  }

  lemma {:induction false} SortSorts<T(!new)>(noLater: (T, T) -> bool, s: seq<T>)
    requires TotalOrder(noLater)
    ensures InOrder(noLater, Sort(noLater, s)) && multiset(Sort(noLater, s)) == multiset(s)
  {
    if s != [] {
      SortSorts(noLater, s[1..]);
      InsertSorts(noLater, s[0], Sort(noLater, s[1..]));
      assert s == [s[0]] + s[1..];
    }
  }

  lemma Behead<T>(noLater: (T, T) -> bool, s: seq<T>) returns (tail: seq<T>)
    requires InOrder(noLater, s) && s != []
    ensures s == [s[0]] + tail && multiset(tail) == multiset(s) - multiset{s[0]} && InOrder(noLater, tail)
  {
    tail := s[1..];
    assert s == [s[0]] + tail;
  }

  lemma SmallestsAgree<T(!new)>(noLater: (T, T) -> bool, a: seq<T>, b: seq<T>)
    requires InOrder(noLater, a) && InOrder(noLater, b) && multiset(a) == multiset(b) && a != []
    requires forall x, y :: x in a && y in a && noLater(x, y) && noLater(y, x) ==> x == y
    ensures b != [] && a[0] == b[0]
  {
    assert a[0] in multiset(b);
    assert b[0] in multiset(a);
    var i :| 0 <= i < |a| && a[i] == b[0];
    var k :| 0 <= k < |b| && b[k] == a[0];
  }

  /** There is only one way to sort, as long as no two different elements tie. */
  lemma {:induction false} SortedIsUnique<T(!new)>(noLater: (T, T) -> bool, a: seq<T>, b: seq<T>)
    requires InOrder(noLater, a) && InOrder(noLater, b) && multiset(a) == multiset(b)
    requires forall x, y :: x in a && y in a && noLater(x, y) && noLater(y, x) ==> x == y
    ensures a == b
    decreases |a|
  {
    if a == [] {
      assert |multiset(b)| == 0;
    } else {
      SmallestsAgree(noLater, a, b);
      var restA := Behead(noLater, a);
      var restB := Behead(noLater, b);
      hide InOrder;
      forall x | x in restA ensures x in a {}
      SortedIsUnique(noLater, restA, restB);
    }
  }

  /** What `f` yields along `s`, in order, with the elements it yields nothing for left out. */
  function Listed<T, X>(f: T -> Option<X>, s: seq<T>): (r: seq<X>) {
    if s == [] then []
    else Listed(f, s[..|s| - 1]) + (if f(s[|s| - 1]).Some? then [f(s[|s| - 1]).value] else [])
  }

  lemma {:induction false} ListedSplits<T, X>(f: T -> Option<X>, s: seq<T>, t: seq<T>)
    ensures Listed(f, s + t) == Listed(f, s) + Listed(f, t)
    decreases |t|
  {
    if t == [] {
      assert s + t == s;
    } else {
      assert (s + t)[..|s + t| - 1] == s + t[..|t| - 1];
      ListedSplits(f, s, t[..|t| - 1]);
    }
  }

  lemma {:induction false} ListedHolds<T, X(!new)>(f: T -> Option<X>, s: seq<T>)
    ensures forall x :: x in Listed(f, s) <==> exists i :: 0 <= i < |s| && f(s[i]) == Some(x)
  {
    if s != [] {
      var init, last := s[..|s| - 1], s[|s| - 1];
      ListedHolds(f, init);
      forall x ensures x in Listed(f, s) <==> exists i :: 0 <= i < |s| && f(s[i]) == Some(x) {
        if x in Listed(f, init) {
          var i :| 0 <= i < |init| && f(init[i]) == Some(x);
          assert f(s[i]) == Some(x);
        }
        if i :| 0 <= i < |s| && f(s[i]) == Some(x) {
          if i < |init| { assert f(init[i]) == Some(x); }
        }
      }
    }
  }

  lemma TakeOut<T, X>(f: T -> Option<X>, t: seq<T>, x: T) returns (rest: seq<T>)
    requires x in multiset(t)
    ensures |rest| == |t| - 1 && multiset(rest) == multiset(t) - multiset{x}
    ensures multiset(Listed(f, t)) == multiset(Listed(f, [x])) + multiset(Listed(f, rest))
  {
    var k :| 0 <= k < |t| && t[k] == x;
    rest := t[..k] + t[k + 1..];
    assert t == t[..k] + ([x] + t[k + 1..]);
    ListedSplits(f, t[..k], [x] + t[k + 1..]);
    ListedSplits(f, [x], t[k + 1..]);
    ListedSplits(f, t[..k], t[k + 1..]);
  }

  /** Rearranging the input rearranges what is listed and loses nothing. */
  lemma {:induction false} ListedPermutes<T, X>(f: T -> Option<X>, s: seq<T>, t: seq<T>)
    requires multiset(s) == multiset(t)
    ensures multiset(Listed(f, s)) == multiset(Listed(f, t))
    decreases |s|
  {
    if s == [] {
      EmptyWhenNothing(t);
    } else {
      hide Listed;
      var x := s[0];
      var without := TakeOut(f, s, x);
      var rest := TakeOut(f, t, x);
      ListedPermutes(f, without, rest);
    }
  }

  lemma EmptyWhenNothing<T>(t: seq<T>)
    requires multiset(t) == multiset([])
    ensures t == []
  {
    assert |multiset(t)| == |t|;
  }

  lemma {:induction false} DistinctMeansOnce<T>(s: seq<T>)
    ensures (forall i, j | 0 <= i < j < |s| :: s[i] != s[j]) <==> (forall x | x in s :: multiset(s)[x] == 1)
  {
    if s != [] {
      var init, last := s[..|s| - 1], s[|s| - 1];
      DistinctMeansOnce(init);
      assert s == init + [last];
      if forall i, j | 0 <= i < j < |s| :: s[i] != s[j] {
        assert forall i, j | 0 <= i < j < |init| :: init[i] != init[j];
        forall x | x in s ensures multiset(s)[x] == 1 {
          if x == last { assert last !in init; } else { assert x in init; }
        }
      }
      if forall x | x in s :: multiset(s)[x] == 1 {
        forall x | x in init ensures multiset(init)[x] == 1 { assert x in s; }
        assert multiset(s)[last] == multiset(init)[last] + 1;
        assert last !in init;
      }
    }
  }
}
