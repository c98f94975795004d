/**
 * Row selection and ordering as the store and the client perform them: `filter`, and a stable
 * sort on an integer key (`.order(col)` in a query, `[...list].sort((a, b) => key(b) - key(a))`).
 */
module Order {
  import opened Common

  /** `s.filter(p)`: the elements satisfying `p`, in their original order. */
  function Filter<T>(s: seq<T>, p: T -> bool): (r: seq<T>)
    ensures |r| <= |s|
    ensures forall i :: 0 <= i < |r| ==> r[i] in s && p(r[i])
    ensures forall i :: 0 <= i < |s| && p(s[i]) ==> s[i] in r
  {
    if s == [] then []
    else
      assert s == [s[0]] + s[1..];
      if p(s[0]) then [s[0]] + Filter(s[1..], p) else Filter(s[1..], p)
  }

  /** Every element of a filter's result sits at some position of the input. */
  lemma FilterFrom<T>(s: seq<T>, p: T -> bool, j: nat)
    requires j < |Filter(s, p)|
    ensures exists i :: 0 <= i < |s| && s[i] == Filter(s, p)[j] && p(s[i])
  {
    assert Filter(s, p)[j] in s;
  }

  /** Every input element satisfying the predicate sits at some position of the filter's result. */
  lemma FilterKeeps<T>(s: seq<T>, p: T -> bool, i: nat)
    requires i < |s| && p(s[i])
    ensures exists j :: 0 <= j < |Filter(s, p)| && Filter(s, p)[j] == s[i]
  {
    assert s[i] in Filter(s, p);
  }

  lemma {:induction false} FilterAppend<T>(a: seq<T>, b: seq<T>, p: T -> bool)
    ensures Filter(a + b, p) == Filter(a, p) + Filter(b, p)
  {
    if a == [] {
      assert a + b == b;
    } else {
      assert (a + b)[0] == a[0];
      assert (a + b)[1..] == a[1..] + b;
      FilterAppend(a[1..], b, p);
    }
  }

  /** Filtering on a condition no element meets keeps nothing. */
  lemma {:induction false} FilterNone<T>(s: seq<T>, p: T -> bool)
    requires forall i :: 0 <= i < |s| ==> !p(s[i])
    ensures Filter(s, p) == []
  {
    if s != [] {
      assert forall i :: 0 <= i < |s| - 1 ==> s[1..][i] == s[i + 1];
      FilterNone(s[1..], p);
    }
  }

  /** Filtering on a condition every element meets keeps them all. */
  lemma {:induction false} FilterAll<T>(s: seq<T>, p: T -> bool)
    requires forall i :: 0 <= i < |s| ==> p(s[i])
    ensures Filter(s, p) == s
  {
    if s != [] {
      assert forall i :: 0 <= i < |s| - 1 ==> s[1..][i] == s[i + 1];
      FilterAll(s[1..], p);
      assert s == [s[0]] + s[1..];
    }
  }

  predicate SortedAsc<T>(s: seq<T>, key: T -> int) {
    forall i, j :: 0 <= i < j < |s| ==> key(s[i]) <= key(s[j])
  }

  predicate SortedDesc<T>(s: seq<T>, key: T -> int) {
    forall i, j :: 0 <= i < j < |s| ==> key(s[i]) >= key(s[j])
  }

  /** Insert `x` into a sorted sequence ahead of every element with an equal or larger key. */
  function Insert<T>(x: T, s: seq<T>, key: T -> int): (r: seq<T>)
    requires SortedAsc(s, key)
    ensures SortedAsc(r, key)
    ensures multiset(r) == multiset(s) + multiset{x}
    ensures |r| == |s| + 1 && (r[0] == x || (s != [] && r[0] == s[0]))
  {
    if s == [] then [x]
    else if key(x) <= key(s[0]) then
      ConsSorted(x, s, key);
      [x] + s
    else
      var t := Insert(x, s[1..], key);
      assert s == [s[0]] + s[1..];
      ConsSorted(s[0], t, key);
      [s[0]] + t
  }

  /** A head no larger than the first element of a sorted sequence keeps it sorted. */
  lemma ConsSorted<T>(h: T, t: seq<T>, key: T -> int)
    requires SortedAsc(t, key) && (t == [] || key(h) <= key(t[0]))
    ensures SortedAsc([h] + t, key)
  {
    var r := [h] + t;
    forall i, j | 0 <= i < j < |r| ensures key(r[i]) <= key(r[j]) {
      if i == 0 {
        assert r[j] == t[j - 1];
      } else {
        assert r[i] == t[i - 1] && r[j] == t[j - 1];
      }
    }
  }

  /** A reordering holds the same elements. */
  lemma SameMembers<T>(r: seq<T>, s: seq<T>)
    requires multiset(r) == multiset(s)
    ensures forall i :: 0 <= i < |r| ==> r[i] in s
  {
    forall i | 0 <= i < |r|
      ensures r[i] in s
    {
      assert r[i] in multiset(r);
    }
  }

  /** A stable ascending sort: elements with equal keys keep their original order. */
  function SortAsc<T>(s: seq<T>, key: T -> int): (r: seq<T>)
    ensures SortedAsc(r, key)
    ensures multiset(r) == multiset(s)
  {
    if s == [] then []
    else
      assert s == [s[0]] + s[1..];
      Insert(s[0], SortAsc(s[1..], key), key)
  }

  function Negated<T>(key: T -> int): T -> int {
    x => -key(x)
  }

  /** A stable descending sort: `[...s].sort((a, b) => key(b) - key(a))`. */
  function SortDesc<T>(s: seq<T>, key: T -> int): (r: seq<T>)
    ensures SortedDesc(r, key)
    ensures multiset(r) == multiset(s)
  {
    var r := SortAsc(s, Negated(key));
    assert forall i, j :: 0 <= i < j < |r| ==> Negated(key)(r[i]) <= Negated(key)(r[j]);
    r
  }

  /**
   * The first element with the largest key, or None for an empty list: the head of a stable
   * descending sort, the latest-version pick of the client views, and
   * `.order(key, { ascending: false }).limit(1)` in a query.
   */
  function Latest<T>(s: seq<T>, key: T -> int): (r: Option<T>)
    ensures r.None? <==> s == []
    ensures r.Some? ==> r.value in s && forall i :: 0 <= i < |s| ==> key(s[i]) <= key(r.value)
  {
    if s == [] then None
    else
      var rest := Latest(s[1..], key);
      assert forall i :: 1 <= i < |s| ==> s[i] == s[1..][i - 1];
      if rest.Some? && key(rest.value) > key(s[0]) then rest else Some(s[0])
  }

  /** The largest key among the elements satisfying `p`, if any: one pass from the last element back. */
  function MaxKeyWhere<T>(s: seq<T>, key: T -> int, p: T -> bool): Option<int>
  {
    if s == [] then None
    else
      var m := MaxKeyWhere(s[..|s| - 1], key, p);
      var last := s[|s| - 1];
      if !p(last) then m
      else if m.Some? && m.value >= key(last) then m
      else Some(key(last))
  }

  /** The one-pass result is the maximum: attained by an element satisfying `p`, and above all of them. */
  lemma {:induction false} MaxKeyWhereIsMax<T>(s: seq<T>, key: T -> int, p: T -> bool)
    ensures MaxKeyWhere(s, key, p).None? <==> forall i :: 0 <= i < |s| ==> !p(s[i])
    ensures MaxKeyWhere(s, key, p).Some? ==>
      exists i :: 0 <= i < |s| && p(s[i]) && key(s[i]) == MaxKeyWhere(s, key, p).value
    ensures MaxKeyWhere(s, key, p).Some? ==>
      forall i :: 0 <= i < |s| && p(s[i]) ==> key(s[i]) <= MaxKeyWhere(s, key, p).value
  {
    if s != [] {
      var init := s[..|s| - 1];
      MaxKeyWhereIsMax(init, key, p);
      assert forall i :: 0 <= i < |init| ==> init[i] == s[i];
      var m := MaxKeyWhere(init, key, p);
      if m.Some? {
        var j :| 0 <= j < |init| && p(init[j]) && key(init[j]) == m.value;
        assert p(s[j]) && key(s[j]) == m.value;
      }
    }
  }

  /** The latest-first pick among the elements satisfying `p` and the one-pass maximum agree on the key. */
  lemma LatestHasMaxKey<T>(s: seq<T>, key: T -> int, p: T -> bool)
    ensures var mine := Filter(s, p);
      MaxKeyWhere(s, key, p) == if mine == [] then None else Some(key(Latest(mine, key).value))
  {
    MaxKeyWhereIsMax(s, key, p);
    var mine := Filter(s, p);
    if mine != [] {
      assert p(mine[0]) && mine[0] in s;
      var x := Latest(mine, key).value;
      var m := MaxKeyWhere(s, key, p).value;
      var i :| 0 <= i < |s| && p(s[i]) && key(s[i]) == m;
      assert s[i] in mine;
      var k :| 0 <= k < |mine| && mine[k] == s[i];
      assert key(mine[k]) <= key(x);
      var j :| 0 <= j < |mine| && mine[j] == x;
      assert x in s && p(x);
      var k2 :| 0 <= k2 < |s| && s[k2] == x;
      assert key(s[k2]) <= m;
      assert key(x) == m;
    }
  }

  /**
   * The head of a stable newest-first sort, or None for an empty list: the client views'
   * `[...list].sort((a, b) => key(b) - key(a))[0] ?? null`.
   */
  function SortedHead<T>(s: seq<T>, key: T -> int): (r: Option<T>)
    ensures r.None? <==> s == []
    ensures r.Some? ==> r.value in s && forall i :: 0 <= i < |s| ==> key(s[i]) <= key(r.value)
  {
    if s == [] then None
    else
      var sorted := SortDesc(s, key);
      HeadIsMax(sorted, s, key);
      Some(sorted[0])
  }

  /** The first element of a descending reordering of `s` is an element of `s` with the largest key. */
  lemma HeadIsMax<T>(sorted: seq<T>, s: seq<T>, key: T -> int)
    requires SortedDesc(sorted, key) && multiset(sorted) == multiset(s) && s != []
    ensures |sorted| == |s| && sorted[0] in s
    ensures forall i :: 0 <= i < |s| ==> key(s[i]) <= key(sorted[0])
  {
    assert |sorted| == |multiset(sorted)| == |multiset(s)| == |s|;
    SameMembers(sorted, s);
    SameMembers(s, sorted);
    forall i | 0 <= i < |s|
      ensures key(s[i]) <= key(sorted[0])
    {
      var j :| 0 <= j < |sorted| && sorted[j] == s[i];
      if j > 0 {
        assert key(sorted[0]) >= key(sorted[j]);
      }
    }
  }

  /** The client's sorted head and the store's latest pick carry the same key. */
  lemma SortedHeadKeyIsLatestKey<T>(s: seq<T>, key: T -> int)
    requires s != []
    ensures key(SortedHead(s, key).value) == key(Latest(s, key).value)
  {
    var h, l := SortedHead(s, key).value, Latest(s, key).value;
    var i :| 0 <= i < |s| && s[i] == h;
    var j :| 0 <= j < |s| && s[j] == l;
    assert key(s[i]) <= key(l) && key(s[j]) <= key(h);
  }

  /** `s.findIndex(y => y == x)`: the first position holding `x`, or -1 when there is none. */
  function IndexOf<T(==)>(s: seq<T>, x: T): (r: int)
    ensures r == -1 <==> x !in s
    ensures r != -1 ==> 0 <= r < |s| && s[r] == x && x !in s[..r]
  {
    if s == [] then -1
    else if s[0] == x then 0
    else
      var r := IndexOf(s[1..], x);
      assert s == [s[0]] + s[1..];
      if r == -1 then -1
      else
        assert s[..r + 1] == [s[0]] + s[1..][..r];
        r + 1
  }

  /** `s.flatMap(f)`, built from the front: the pieces `f` gives each element, in order. */
  function FlatMap<T, U>(s: seq<T>, f: T -> seq<U>): seq<U> {
    if s == [] then [] else FlatMap(s[..|s| - 1], f) + f(s[|s| - 1])
  }

  /** With pieces of at most one element, an element is in the result exactly when some piece is that element. */
  lemma {:induction false} InFlatMap<T, U>(s: seq<T>, f: T -> seq<U>, u: U)
    requires forall x :: |f(x)| <= 1
    ensures u in FlatMap(s, f) <==> exists k :: 0 <= k < |s| && f(s[k]) == [u]
    ensures |FlatMap(s, f)| <= |s|
  {
    if s != [] {
      var init, last := s[..|s| - 1], s[|s| - 1];
      InFlatMap(init, f, u);
      if u in f(last) {
        assert f(last) == [u];
      }
      if exists k :: 0 <= k < |s| && f(s[k]) == [u] {
        var k :| 0 <= k < |s| && f(s[k]) == [u];
        if k < |init| {
          assert f(init[k]) == [u];
        }
      }
      if exists k :: 0 <= k < |init| && f(init[k]) == [u] {
        var k :| 0 <= k < |init| && f(init[k]) == [u];
        assert f(s[k]) == [u];
      }
    }
  }

  /** `flatMap` distributes over concatenation. */
  lemma {:induction false} FlatMapAppend<T, U>(a: seq<T>, b: seq<T>, f: T -> seq<U>)
    ensures FlatMap(a + b, f) == FlatMap(a, f) + FlatMap(b, f)
    decreases |b|
  {
    if b != [] {
      var init := b[..|b| - 1];
      FlatMapAppend(a, init, f);
      assert (a + b)[..|a + b| - 1] == a + init;
      assert (a + b)[|a + b| - 1] == b[|b| - 1];
      calc {
        FlatMap(a + b, f);
        FlatMap(a + init, f) + f(b[|b| - 1]);
        FlatMap(a, f) + FlatMap(init, f) + f(b[|b| - 1]);
        FlatMap(a, f) + FlatMap(b, f);
      }
    } else {
      assert a + b == a;
    }
  }

  lemma FlatMapOne<T, U>(x: T, f: T -> seq<U>)
    ensures FlatMap([x], f) == f(x)
  {
    assert [x][..0] == [];
  }
}
