/**
  Sequences up to order: sorting by a comparator, and why a sorted result does not depend on the
  order of its input.
 */
module Sorting {
  import opened Wrappers

  /** A comparator as "left goes no later than right"; a comparator result of 0 is both directions. */
  type Order<!T> = (T, T) -> bool

  ghost predicate Preorder<T(!new)>(leq: Order<T>) {
    && (forall x, y :: leq(x, y) || leq(y, x))
    && (forall x, y, z :: leq(x, y) && leq(y, z) ==> leq(x, z))
  }

  /** The order tells the elements of `s` apart: none compare equal but an element and itself. */
  ghost predicate TellsApart<T(!new)>(leq: Order<T>, s: seq<T>) {
    forall x, y :: x in s && y in s && leq(x, y) && leq(y, x) ==> x == y
  }

  ghost predicate Sorted<T(!new)>(leq: Order<T>, s: seq<T>) {
    forall i, j :: 0 <= i < j < |s| ==> leq(s[i], s[j])
  }

  /** `a || b` on comparator results: `other` decides when `first` calls the two equal. */
  function Then<T>(first: Order<T>, other: Order<T>): Order<T> {
    (x, y) => first(x, y) && (first(y, x) ==> other(x, y))
  }

  /** Compare by a key. */
  function By<T, K>(key: T -> K, leq: Order<K>): Order<T> {
    (x, y) => leq(key(x), key(y))
  }

  const IntOrder: Order<int> := (x, y) => x <= y

  lemma ThenIsPreorder<T(!new)>(first: Order<T>, other: Order<T>)
    requires Preorder(first) && Preorder(other)
    ensures Preorder(Then(first, other))
  {
    var both := Then(first, other);
    forall x, y, z | both(x, y) && both(y, z) ensures both(x, z) {}
  }

  lemma ByIsPreorder<T(!new), K(!new)>(key: T -> K, leq: Order<K>)
    requires Preorder(leq)
    ensures Preorder(By(key, leq))
  {
    var keyed := By(key, leq);
    forall x, y, z | keyed(x, y) && keyed(y, z) ensures keyed(x, z) {}
  }

  /** A stable sort; elements are inserted in input order, behind those they compare equal to. */
  function Sort<T>(leq: Order<T>, s: seq<T>): seq<T> {
    if s == [] then [] else Insert(leq, Sort(leq, s[..|s| - 1]), s[|s| - 1])
  }

  function Insert<T>(leq: Order<T>, s: seq<T>, x: T): seq<T> {
    if s == [] || leq(s[|s| - 1], x) then s + [x]
    else Insert(leq, s[..|s| - 1], x) + [s[|s| - 1]]
  }

  lemma {:induction false} InsertKeepsElements<T(!new)>(leq: Order<T>, s: seq<T>, x: T)
    ensures multiset(Insert(leq, s, x)) == multiset(s) + multiset{x}
  {
    if s != [] && !leq(s[|s| - 1], x) {
      DropLast(s);
      InsertKeepsElements(leq, s[..|s| - 1], x);
    }
  }

  lemma {:induction false} InsertKeepsSorted<T(!new)>(leq: Order<T>, s: seq<T>, x: T)
    requires Preorder(leq) && Sorted(leq, s)
    ensures Sorted(leq, Insert(leq, s, x))
  {
    if s != [] && !leq(s[|s| - 1], x) {
      var init, last := s[..|s| - 1], s[|s| - 1];
      InsertKeepsSorted(leq, init, x);
      InsertKeepsElements(leq, init, x);
      var t := Insert(leq, init, x);
      forall y | y in t ensures leq(y, last) {
        assert y in multiset(t);
        assert y in init || y == x;
      }
    }
  }

  lemma {:induction false} SortSorts<T(!new)>(leq: Order<T>, s: seq<T>)
    requires Preorder(leq)
    ensures Sorted(leq, Sort(leq, s)) && multiset(Sort(leq, s)) == multiset(s)
  {
    if s != [] {
      var init, last := s[..|s| - 1], s[|s| - 1];
      SortSorts(leq, init);
      InsertKeepsSorted(leq, Sort(leq, init), last);
      InsertKeepsElements(leq, Sort(leq, init), last);
      DropLast(s);
    }
  }

  lemma LastIsGreatest<T(!new)>(leq: Order<T>, s: seq<T>, x: T)
    requires Sorted(leq, s) && x in s
    ensures x == s[|s| - 1] || leq(x, s[|s| - 1])
  {
  }

  lemma DropLast<T>(s: seq<T>)
    requires s != []
    ensures multiset(s) == multiset(s[..|s| - 1]) + multiset{s[|s| - 1]}
  {
    assert s == s[..|s| - 1] + [s[|s| - 1]];
  }

  lemma SameLast<T(!new)>(leq: Order<T>, a: seq<T>, b: seq<T>)
    requires Sorted(leq, a) && Sorted(leq, b) && multiset(a) == multiset(b) && TellsApart(leq, a) && a != []
    ensures |a| == |b| && a[|a| - 1] == b[|b| - 1]
  {
    SameMembers(a, b);
    LastIsGreatest(leq, a, b[|b| - 1]);
    LastIsGreatest(leq, b, a[|a| - 1]);
  }

  lemma SameInit<T(!new)>(leq: Order<T>, a: seq<T>, b: seq<T>)
    requires a != [] && b != [] && a[|a| - 1] == b[|b| - 1] && multiset(a) == multiset(b) && TellsApart(leq, a)
    ensures multiset(a[..|a| - 1]) == multiset(b[..|b| - 1]) && TellsApart(leq, a[..|a| - 1])
  {
    var last := a[|a| - 1];
    assert multiset(a[..|a| - 1]) == multiset(a) - multiset{last} by { DropLast(a); }
    assert multiset(b[..|b| - 1]) == multiset(b) - multiset{last} by { DropLast(b); }
  }

  /** Two sorted sequences of the same elements are equal if the order tells the elements apart. */
  lemma {:induction false} SortedIsUnique<T(!new)>(leq: Order<T>, a: seq<T>, b: seq<T>)
    requires Sorted(leq, a) && Sorted(leq, b) && multiset(a) == multiset(b) && TellsApart(leq, a)
    ensures a == b
  {
    SameMembers(a, b);
    if a != [] {
      SameLast(leq, a, b);
      SameInit(leq, a, b);
      SortedIsUnique(leq, a[..|a| - 1], b[..|b| - 1]);
      SplitLast(a, b);
    }
  }

  lemma SplitLast<T>(a: seq<T>, b: seq<T>)
    requires a != [] && b != [] && a[|a| - 1] == b[|b| - 1] && a[..|a| - 1] == b[..|b| - 1]
    ensures a == b
  {
    assert a == a[..|a| - 1] + [a[|a| - 1]] && b == b[..|b| - 1] + [b[|b| - 1]];
  }

  /** The result of a sort depends on the elements only, not on their order. */
  lemma SortIgnoresOrder<T(!new)>(leq: Order<T>, a: seq<T>, b: seq<T>)
    requires Preorder(leq) && multiset(a) == multiset(b) && TellsApart(leq, a)
    ensures Sort(leq, a) == Sort(leq, b)
  {
    SortSorts(leq, a);
    SortSorts(leq, b);
    forall x | x in Sort(leq, a) ensures x in a { assert x in multiset(Sort(leq, a)); }
    SortedIsUnique(leq, Sort(leq, a), Sort(leq, b));
  }

  // ---- ties ----------------------------------------------------------------------------------

  lemma TiedAtEnd<T(!new)>(leq: Order<T>, s: seq<T>, a: T, b: T)
    requires Preorder(leq) && a != b && leq(a, b) && leq(b, a) && (s != [] ==> leq(s[|s| - 1], a))
    ensures Insert(leq, Insert(leq, s, a), b) != Insert(leq, Insert(leq, s, b), a)
  {
    assert s != [] ==> leq(s[|s| - 1], b);
    assert Insert(leq, s, a) == s + [a] && Insert(leq, s, b) == s + [b];
    assert Insert(leq, s + [a], b) == s + [a] + [b] && Insert(leq, s + [b], a) == s + [b] + [a];
    assert (s + [a] + [b])[|s|] == a && (s + [b] + [a])[|s|] == b;
  }

  /** Two different elements that compare equal end up in the order in which they are inserted. */
  lemma {:induction false} TieMatters<T(!new)>(leq: Order<T>, s: seq<T>, a: T, b: T)
    requires Preorder(leq) && a != b && leq(a, b) && leq(b, a)
    ensures Insert(leq, Insert(leq, s, a), b) != Insert(leq, Insert(leq, s, b), a)
  {
    if s == [] || leq(s[|s| - 1], a) {
      TiedAtEnd(leq, s, a, b);
    } else {
      var init, last := s[..|s| - 1], s[|s| - 1];
      assert !leq(last, b);
      TieMatters(leq, init, a, b);
      InsertBelow(leq, Insert(leq, init, a), last, b);
      InsertBelow(leq, Insert(leq, init, b), last, a);
      var x, y := Insert(leq, Insert(leq, init, a), b), Insert(leq, Insert(leq, init, b), a);
      if x + [last] == y + [last] { WithoutLast(x, y, last); }
    }
  }

  lemma WithoutLast<T>(x: seq<T>, y: seq<T>, last: T)
    requires x + [last] == y + [last]
    ensures x == y
  {
    assert x == (x + [last])[..|x + [last]| - 1] && y == (y + [last])[..|y + [last]| - 1];
  }

  lemma InsertBelow<T(!new)>(leq: Order<T>, s: seq<T>, last: T, x: T)
    requires !leq(last, x)
    ensures Insert(leq, s + [last], x) == Insert(leq, s, x) + [last]
  {
    assert (s + [last])[..|s|] == s;
  }

  lemma SortOneMore<T(!new)>(leq: Order<T>, s: seq<T>, x: T)
    ensures Sort(leq, s + [x]) == Insert(leq, Sort(leq, s), x)
  {
    assert (s + [x])[..|s|] == s;
  }

  lemma SortTwoMore<T(!new)>(leq: Order<T>, s: seq<T>, a: T, b: T)
    ensures Sort(leq, s + [a, b]) == Insert(leq, Insert(leq, Sort(leq, s), a), b)
  {
    var t := s + [a];
    assert s + [a, b] == t + [b];
    SortOneMore(leq, t, b);
    SortOneMore(leq, s, a);
  }

  /** A sort of two orderings that differ in two last elements which compare equal gives two results. */
  lemma SortSeesTies<T(!new)>(leq: Order<T>, s: seq<T>, a: T, b: T)
    requires Preorder(leq) && a != b && leq(a, b) && leq(b, a)
    ensures Sort(leq, s + [a, b]) != Sort(leq, s + [b, a])
  {
    SortTwoMore(leq, s, a, b);
    SortTwoMore(leq, s, b, a);
    TieMatters(leq, Sort(leq, s), a, b);
  }

  function Filter<T>(keep: T -> bool, s: seq<T>): seq<T> {
    if s == [] then []
    else Filter(keep, s[..|s| - 1]) + if keep(s[|s| - 1]) then [s[|s| - 1]] else []
  }

  lemma FilterAppend<T>(keep: T -> bool, s: seq<T>, x: T)
    ensures Filter(keep, s + [x]) == Filter(keep, s) + if keep(x) then [x] else []
  {
    assert (s + [x])[..|s|] == s;
  }

  lemma {:induction false} FilterIgnoresInsert<T(!new)>(keep: T -> bool, leq: Order<T>, s: seq<T>, x: T)
    requires !keep(x)
    ensures Filter(keep, Insert(leq, s, x)) == Filter(keep, s)
  {
    FilterAppend(keep, s, x);
    if s != [] && !leq(s[|s| - 1], x) {
      FilterIgnoresInsert(keep, leq, s[..|s| - 1], x);
      FilterAppend(keep, Insert(leq, s[..|s| - 1], x), s[|s| - 1]);
    }
  }

  /** Elements that are filtered out of the result of a sort may as well not be sorted, if they come last. */
  lemma {:induction false} FilterIgnoresTail<T(!new)>(keep: T -> bool, leq: Order<T>, s: seq<T>, tail: seq<T>)
    requires forall x :: x in tail ==> !keep(x)
    ensures Filter(keep, Sort(leq, s + tail)) == Filter(keep, Sort(leq, s))
  {
    if tail == [] {
      assert s + tail == s;
    } else {
      var init, last := tail[..|tail| - 1], tail[|tail| - 1];
      assert (s + tail)[..|s + tail| - 1] == s + init && (s + tail)[|s + tail| - 1] == last;
      FilterIgnoresTail(keep, leq, s, init);
      FilterIgnoresInsert(keep, leq, Sort(leq, s + init), last);
    }
  }

  lemma {:induction false} FilterKeepsAll<T(!new)>(keep: T -> bool, s: seq<T>)
    requires forall x :: x in s ==> keep(x)
    ensures Filter(keep, s) == s
  {
    if s != [] {
      var init, last := s[..|s| - 1], s[|s| - 1];
      assert last in s && forall x :: x in init ==> x in s;
      FilterKeepsAll(keep, init);
      assert s == init + [last];
    }
  }

  lemma RemoveOne<T(!new)>(s: seq<T>, a: T) returns (rest: seq<T>)
    requires a in s
    ensures multiset(s) == multiset(rest) + multiset{a}
  {
    var i :| 0 <= i < |s| && s[i] == a;
    rest := s[..i] + s[i + 1..];
    assert s == s[..i] + [a] + s[i + 1..];
  }

  /** Two different elements can be moved to the end. */
  lemma PutLast<T(!new)>(s: seq<T>, a: T, b: T) returns (rest: seq<T>)
    requires a in s && b in s && a != b
    ensures multiset(rest + [a, b]) == multiset(s) == multiset(rest + [b, a])
  {
    var t := RemoveOne(s, a);
    assert b in multiset(s);
    rest := RemoveOne(t, b);
  }

  predicate Distinct<T(==)>(s: seq<T>) {
    forall i, j :: 0 <= i < j < |s| ==> s[i] != s[j]
  }

  function Map<T, R>(f: T -> R, s: seq<T>): (r: seq<R>)
    ensures |r| == |s| && forall i :: 0 <= i < |s| ==> r[i] == f(s[i])
  {
    seq(|s|, i requires 0 <= i < |s| => f(s[i]))
  }

  /** The rows a loop pushes: one for each element that gives one. */
  function Collect<T, R>(f: T -> Option<R>, s: seq<T>): seq<R> {
    if s == [] then []
    else Collect(f, s[..|s| - 1]) + if f(s[|s| - 1]).Some? then [f(s[|s| - 1]).value] else []
  }

  lemma {:induction false} CollectMembers<T(!new), R(!new)>(f: T -> Option<R>, s: seq<T>)
    ensures forall y :: y in Collect(f, s) <==> exists x :: x in s && f(x) == Some(y)
  {
    if s != [] {
      CollectMembers(f, s[..|s| - 1]);
      assert s == s[..|s| - 1] + [s[|s| - 1]];
    }
  }

  function Gives<R>(y: Option<R>): multiset<R> {
    if y.Some? then multiset{y.value} else multiset{}
  }

  lemma {:induction false} CollectWithout<T(!new), R(!new)>(f: T -> Option<R>, s: seq<T>, k: nat)
    requires k < |s|
    ensures multiset(Collect(f, s)) == multiset(Collect(f, s[..k] + s[k + 1..])) + Gives(f(s[k]))
  {
    var n := |s| - 1;
    assert s == s[..n] + [s[n]];
    if k == n {
      assert s[..k] + s[k + 1..] == s[..n];
    } else {
      CollectWithout(f, s[..n], k);
      var t := s[..k] + s[k + 1..];
      assert t[..|t| - 1] == s[..n][..k] + s[..n][k + 1..] && t[|t| - 1] == s[n];
    }
  }

  /** Take the last element of `a` out of both `a` and `b`. */
  lemma TakeOut<T>(a: seq<T>, b: seq<T>) returns (k: nat)
    requires multiset(a) == multiset(b) && a != []
    ensures k < |b| && b[k] == a[|a| - 1]
    ensures multiset(a[..|a| - 1]) == multiset(b[..k] + b[k + 1..])
  {
    DropLast(a);
    assert a[|a| - 1] in multiset(b);
    k :| 0 <= k < |b| && b[k] == a[|a| - 1];
    assert b == b[..k] + [b[k]] + b[k + 1..];
    assert multiset(b[..k] + b[k + 1..]) == multiset(b) - multiset{b[k]};
    assert multiset(a[..|a| - 1]) == multiset(a) - multiset{b[k]};
  }

  lemma {:induction false} CollectIgnoresOrder<T(!new), R(!new)>(f: T -> Option<R>, a: seq<T>, b: seq<T>)
    requires multiset(a) == multiset(b)
    ensures multiset(Collect(f, a)) == multiset(Collect(f, b))
  {
    if a == [] {
      assert |multiset(b)| == 0;
    } else {
      var k := TakeOut(a, b);
      CollectIgnoresOrder(f, a[..|a| - 1], b[..k] + b[k + 1..]);
      CollectWithout(f, b, k);
      CollectLast(f, a);
    }
  }

  lemma CollectLast<T, R>(f: T -> Option<R>, s: seq<T>)
    requires s != []
    ensures multiset(Collect(f, s)) == multiset(Collect(f, s[..|s| - 1])) + Gives(f(s[|s| - 1]))
  {
  }

  lemma CollectStep<T, R>(f: T -> Option<R>, s: seq<T>, i: nat)
    requires i < |s|
    ensures Collect(f, s[..i + 1]) == Collect(f, s[..i]) + if f(s[i]).Some? then [f(s[i]).value] else []
  {
    assert s[..i + 1][..i] == s[..i];
  }

  lemma MapLast<T, R>(f: T -> R, s: seq<T>)
    requires s != []
    ensures Map(f, s) == Map(f, s[..|s| - 1]) + [f(s[|s| - 1])]
  {
  }

  lemma {:induction false} MapIgnoresOrder<T(!new), R(!new)>(f: T -> R, a: seq<T>, b: seq<T>)
    requires multiset(a) == multiset(b)
    ensures multiset(Map(f, a)) == multiset(Map(f, b))
  {
    CollectIgnoresOrder(x => Some(f(x)), a, b);
    MapIsCollect(f, a);
    MapIsCollect(f, b);
  }

  lemma {:induction false} MapIsCollect<T(!new), R(!new)>(f: T -> R, s: seq<T>)
    ensures Map(f, s) == Collect(x => Some(f(x)), s)
  {
    if s != [] { MapIsCollect(f, s[..|s| - 1]); }
  }

  lemma {:induction false} DistinctIsMultiplicity<T(!new)>(s: seq<T>)
    ensures Distinct(s) <==> forall x :: multiset(s)[x] <= 1
  {
    if s != [] {
      var n := |s| - 1;
      var init, last := s[..n], s[n];
      assert s == init + [last];
      DistinctIsMultiplicity(init);
      if Distinct(s) {
        assert last !in init;
        assert Distinct(init);
      } else if Distinct(init) {
        var i, j :| 0 <= i < j < |s| && s[i] == s[j];
        assert j == n && init[i] == last;
        assert multiset(s)[last] >= 2;
      } else {
        var x :| multiset(init)[x] > 1;
        assert multiset(s)[x] > 1;
      }
    }
  }

  lemma DistinctIgnoresOrder<T(!new)>(a: seq<T>, b: seq<T>)
    requires multiset(a) == multiset(b)
    ensures Distinct(a) <==> Distinct(b)
  {
    DistinctIsMultiplicity(a);
    DistinctIsMultiplicity(b);
  }

  lemma SameMembers<T(!new)>(a: seq<T>, b: seq<T>)
    requires multiset(a) == multiset(b)
    ensures forall x :: x in a <==> x in b
    ensures |a| == |b|
  {
    forall x ensures x in a <==> x in b {
      assert x in a <==> x in multiset(a);
      assert x in b <==> x in multiset(b);
    }
    assert |a| == |multiset(a)| == |multiset(b)| == |b|;
  }

  /** The uniqueness loops of the catalogue scripts: a growing set of what has been seen. */
  method CheckDistinct<T(==)>(s: seq<T>) returns (ok: bool)
    ensures ok <==> Distinct(s)
  {
    var seen := {};
    for i := 0 to |s|
      invariant Distinct(s[..i])
      invariant forall x :: x in seen <==> x in s[..i]
    {
      if s[i] in seen {
        var j :| 0 <= j < i && s[..i][j] == s[i];
        return false;
      }
      seen := seen + {s[i]};
    }
    assert s[..|s|] == s;
    ok := true;
  }
}
