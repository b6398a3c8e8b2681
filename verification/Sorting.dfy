/** A stable sort: what comes first is decided by `before`, and equals keep their order. */
module Sorting {

  /** `before` puts things in an order in which equals may occur. */
  ghost predicate WeakOrder<T(!new)>(before: (T, T) -> bool) {
    && (forall x, y :: !(before(x, y) && before(y, x)))
    && forall x, y, z :: !before(y, x) && !before(z, y) ==> !before(z, x)
  }

  ghost predicate Ordered<T>(s: seq<T>, before: (T, T) -> bool) {
    forall i, j :: 0 <= i < j < |s| ==> !before(s[j], s[i])
  }

  /** The place behind everything that x does not come before. */
  function Place<T>(s: seq<T>, x: T, before: (T, T) -> bool): (k: nat)
    ensures k <= |s| && (k > 0 ==> !before(x, s[k - 1]))
    ensures forall i :: k <= i < |s| ==> before(x, s[i])
  {
    if s == [] || !before(x, s[|s| - 1]) then |s| else Place(s[..|s| - 1], x, before)
  }

  function Sort<T>(s: seq<T>, before: (T, T) -> bool): (r: seq<T>)
    ensures multiset(r) == multiset(s)
  {
    if s == [] then []
    else
      assert s == s[..|s| - 1] + [s[|s| - 1]];
      var rest := Sort(s[..|s| - 1], before);
      var k := Place(rest, s[|s| - 1], before);
      assert rest == rest[..k] + rest[k..];
      rest[..k] + [s[|s| - 1]] + rest[k..]
  }

  lemma InsertOrders<T(!new)>(rest: seq<T>, x: T, k: nat, before: (T, T) -> bool)
    requires WeakOrder(before) && Ordered(rest, before) && k <= |rest|
    requires k > 0 ==> !before(x, rest[k - 1])
    requires forall i :: k <= i < |rest| ==> before(x, rest[i])
    ensures Ordered(rest[..k] + [x] + rest[k..], before)
  {
    var r := rest[..k] + [x] + rest[k..];
    forall i | 0 <= i < k ensures !before(x, rest[i]) {
      assert i == k - 1 || !before(rest[k - 1], rest[i]);
    }
    forall i, j | 0 <= i < j < |r| ensures !before(r[j], r[i]) {
      assert r[i] == if i < k then rest[i] else if i == k then x else rest[i - 1];
      assert r[j] == if j < k then rest[j] else if j == k then x else rest[j - 1];
    }
  }

  lemma {:induction false} SortOrders<T(!new)>(s: seq<T>, before: (T, T) -> bool)
    requires WeakOrder(before)
    ensures Ordered(Sort(s, before), before)
  {
    hide WeakOrder, Ordered;
    if s == [] {
      EmptyIsOrdered(before);
    } else {
      SortOrders(s[..|s| - 1], before);
      var rest := Sort(s[..|s| - 1], before);
      InsertOrders(rest, s[|s| - 1], Place(rest, s[|s| - 1], before), before);
    }
  }

  lemma EmptyIsOrdered<T>(before: (T, T) -> bool)
    ensures Ordered([], before)
  {
  }

  lemma SameElements<T>(a: seq<T>, b: seq<T>)
    requires multiset(a) == multiset(b)
    ensures |a| == |b| && forall x :: x in a <==> x in b
  {
    assert forall x :: x in a <==> x in multiset(a);
    assert forall x :: x in b <==> x in multiset(b);
    assert |a| == |multiset(a)| && |b| == |multiset(b)|;
  }

  lemma TwiceCounted<T>(s: seq<T>, i: nat, j: nat)
    requires i < j < |s| && s[i] == s[j]
    ensures multiset(s)[s[i]] >= 2
  {
    assert s == s[..j] + s[j..];
    assert s[i] == s[..j][i] && s[j] == s[j..][0];
    assert s[i] in multiset(s[..j]) && s[i] in multiset(s[j..]);
  }

  lemma {:induction false} OnceEach<T>(s: seq<T>)
    requires forall i, j :: 0 <= i < j < |s| ==> s[i] != s[j]
    ensures forall x :: multiset(s)[x] <= 1
  {
    if s != [] {
      var rest, last := s[..|s| - 1], s[|s| - 1];
      OnceEach(rest);
      assert s == rest + [last];
      assert last !in rest;
      assert last !in multiset(rest);
    }
  }

  /** Sorting distinct elements leaves them distinct. */
  lemma StaysDistinct<T>(s: seq<T>, r: seq<T>)
    requires multiset(r) == multiset(s) && forall i, j :: 0 <= i < j < |s| ==> s[i] != s[j]
    ensures forall i, j :: 0 <= i < j < |r| ==> r[i] != r[j]
  {
    OnceEach(s);
    forall i, j | 0 <= i < j < |r| ensures r[i] != r[j] {
      if r[i] == r[j] {
        TwiceCounted(r, i, j);
      }
    }
  }
}
