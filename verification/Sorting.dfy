/**
 The contract of the library sort the program calls: any permutation of the input
 that is in order. Nothing is assumed about how ties are broken, so a result proved
 from `SortedPerm` holds of the unstable library sort too.
 */
module Sorting {
  ghost predicate TotalPreorder<T(!new)>(le: (T, T) -> bool) {
    && (forall x, y :: le(x, y) || le(y, x))
    && (forall x, y, z :: le(x, y) && le(y, z) ==> le(x, z))
  }

  ghost predicate AntiSymmetric<T(!new)>(le: (T, T) -> bool) {
    forall x, y :: le(x, y) && le(y, x) ==> x == y
  }

  predicate Sorted<T>(le: (T, T) -> bool, s: seq<T>) {
    forall i, j :: 0 <= i < j < |s| ==> le(s[i], s[j])
  }

  ghost predicate SortedPerm<T>(le: (T, T) -> bool, s: seq<T>, t: seq<T>) {
    Sorted(le, t) && multiset(t) == multiset(s)
  }

  lemma SameElements<T>(s: seq<T>, t: seq<T>)
    requires multiset(s) == multiset(t)
    ensures |s| == |t|
    ensures forall x :: x in s <==> x in t
  {
    assert |multiset(s)| == |multiset(t)|;
    assert forall x :: x in s <==> x in multiset(s);
    assert forall x :: x in t <==> x in multiset(t);
  }

  function Insert<T>(le: (T, T) -> bool, x: T, s: seq<T>): (t: seq<T>) {
    if s == [] || le(x, s[0]) then [x] + s else [s[0]] + Insert(le, x, s[1..])
  }

  function Sort<T>(le: (T, T) -> bool, s: seq<T>): (t: seq<T>) {
    if s == [] then [] else Insert(le, s[0], Sort(le, s[1..]))
  }

  lemma {:induction false} InsertSorts<T(!new)>(le: (T, T) -> bool, x: T, s: seq<T>)
    requires TotalPreorder(le) && Sorted(le, s)
    ensures SortedPerm(le, [x] + s, Insert(le, x, s))
  {
    if s == [] || le(x, s[0]) {
      forall i, j | 0 <= i < j < |[x] + s| ensures le(([x] + s)[i], ([x] + s)[j]) {
        if i == 0 { assert le(x, s[0]) && (j == 1 || le(s[0], s[j - 1])); }
      }
    } else {
      InsertSorts(le, x, s[1..]);
      var rest := Insert(le, x, s[1..]);
      SameElements(rest, [x] + s[1..]);
      var t := [s[0]] + rest;
      forall i, j | 0 <= i < j < |t| ensures le(t[i], t[j]) {
        if i == 0 {
          var y := rest[j - 1];
          assert y in [x] + s[1..];
          if y != x {
            var k :| 0 <= k < |s[1..]| && s[1..][k] == y;
            assert le(s[0], s[k + 1]);
          }
        }
      }
      assert s == [s[0]] + s[1..];
      assert multiset(t) == multiset{s[0]} + multiset(rest);
    }
  }

  lemma {:induction false} SortSorts<T(!new)>(le: (T, T) -> bool, s: seq<T>)
    requires TotalPreorder(le)
    ensures SortedPerm(le, s, Sort(le, s))
  {
    if s != [] {
      SortSorts(le, s[1..]);
      InsertSorts(le, s[0], Sort(le, s[1..]));
      assert s == [s[0]] + s[1..];
    }
  }

  /** The least element comes first, whatever the arrangement. */
  lemma SameHead<T(!new)>(le: (T, T) -> bool, s: seq<T>, t: seq<T>)
    requires TotalPreorder(le) && AntiSymmetric(le) && s != [] && t != []
    requires Sorted(le, s) && Sorted(le, t) && multiset(s) == multiset(t)
    ensures s[0] == t[0]
  {
    SameElements(s, t);
    assert s[0] in t && t[0] in s;
    var i :| 0 <= i < |t| && t[i] == s[0];
    var j :| 0 <= j < |s| && s[j] == t[0];
    assert le(s[0], t[0]) && le(t[0], s[0]);
  }

  lemma TailElements<T>(s: seq<T>)
    requires s != []
    ensures multiset(s[1..]) == multiset(s) - multiset{s[0]}
  {
    assert s == [s[0]] + s[1..];
  }

  /** Under an antisymmetric order the sorted arrangement of a collection is unique. */
  lemma {:induction false} SortedPermUnique<T(!new)>(le: (T, T) -> bool, s: seq<T>, t: seq<T>)
    requires TotalPreorder(le) && AntiSymmetric(le)
    requires Sorted(le, s) && Sorted(le, t) && multiset(s) == multiset(t)
    ensures s == t
  {
    SameElements(s, t);
    if s != [] {
      SameHead(le, s, t);
      TailElements(s);
      TailElements(t);
      SortedPermUnique(le, s[1..], t[1..]);
      assert s == [s[0]] + s[1..] && t == [t[0]] + t[1..];
    }
  }

  predicate AllDifferent<T(==)>(s: seq<T>) { forall i, j :: 0 <= i < j < |s| ==> s[i] != s[j] }

  lemma {:induction false} OnceEach<T>(s: seq<T>, x: T)
    requires AllDifferent(s)
    ensures multiset(s)[x] <= 1
  {
    if s != [] {
      var init := s[..|s| - 1];
      assert s == init + [s[|s| - 1]];
      OnceEach(init, x);
      if s[|s| - 1] == x { assert x !in init; assert x !in multiset(init); }
    }
  }

  lemma TwiceIn<T>(s: seq<T>, i: nat, j: nat)
    requires i < j < |s| && s[i] == s[j]
    ensures multiset(s)[s[i]] >= 2
  {
    assert s == s[..i] + [s[i]] + s[i + 1..j] + [s[j]] + s[j + 1..];
  }

  /** Rearranging different elements leaves them different. */
  lemma StillDifferent<T>(s: seq<T>, t: seq<T>)
    requires AllDifferent(s) && multiset(s) == multiset(t)
    ensures AllDifferent(t)
  {
    forall i, j | 0 <= i < j < |t| ensures t[i] != t[j] {
      OnceEach(s, t[i]);
      if t[i] == t[j] { TwiceIn(t, i, j); }
    }
  }

  lemma NonEmpty<T>(s: set<T>)
    ensures s == {} || exists x :: x in s
  {
    assert (forall x :: x !in s) ==> s == {};
  }

  // ---------------------------------------------------------------- filtering

  /** The elements that satisfy `p`, in order. */
  function Filter<T>(p: T -> bool, s: seq<T>): seq<T> {
    if s == [] then []
    else Filter(p, s[..|s| - 1]) + if p(s[|s| - 1]) then [s[|s| - 1]] else []
  }

  lemma FilterStep<T>(p: T -> bool, s: seq<T>, i: nat)
    requires i < |s|
    ensures Filter(p, s[..i + 1]) == Filter(p, s[..i]) + if p(s[i]) then [s[i]] else []
  {
    assert s[..i + 1][..i] == s[..i];
  }

  lemma {:induction false} FilterAppend<T>(p: T -> bool, a: seq<T>, b: seq<T>)
    ensures Filter(p, a + b) == Filter(p, a) + Filter(p, b)
    decreases |b|
  {
    if b == [] { assert a + b == a; }
    else {
      assert (a + b)[..|a + b| - 1] == a + b[..|b| - 1];
      FilterAppend(p, a, b[..|b| - 1]);
    }
  }

  lemma FilterHead<T>(p: T -> bool, s: seq<T>)
    requires s != []
    ensures p(s[0]) ==> Filter(p, s) == [s[0]] + Filter(p, s[1..])
    ensures !p(s[0]) ==> Filter(p, s) == Filter(p, s[1..])
  {
    assert s == [s[0]] + s[1..];
    FilterAppend(p, [s[0]], s[1..]);
    FilterStep(p, [s[0]], 0);
    assert [s[0]][..1] == [s[0]] && [s[0]][..0] == [];
  }

  /** Filtering keeps exactly the satisfying elements, each as often as it occurred. */
  lemma {:induction false} FilterCount<T>(p: T -> bool, s: seq<T>, x: T)
    ensures multiset(Filter(p, s))[x] == if p(x) then multiset(s)[x] else 0
  {
    if s != [] {
      FilterCount(p, s[..|s| - 1], x);
      assert s == s[..|s| - 1] + [s[|s| - 1]];
    }
  }

  lemma FilterKeeps<T>(p: T -> bool, s: seq<T>, x: T)
    ensures x in Filter(p, s) <==> x in s && p(x)
  {
    FilterCount(p, s, x);
    assert x in Filter(p, s) <==> x in multiset(Filter(p, s));
    assert x in s <==> x in multiset(s);
  }

  lemma {:induction false} FilterAll<T>(p: T -> bool, s: seq<T>)
    ensures (forall x :: x in s ==> p(x)) <==> Filter(p, s) == s
    ensures |Filter(p, s)| <= |s|
  {
    if s != [] {
      var init := s[..|s| - 1];
      FilterAll(p, init);
      assert s == init + [s[|s| - 1]];
      assert s[|s| - 1] in s;
    }
  }

  lemma {:induction false} FilterNone<T>(p: T -> bool, s: seq<T>)
    requires forall x :: x in s ==> !p(x)
    ensures Filter(p, s) == []
  {
    if s != [] {
      assert s[|s| - 1] in s;
      FilterNone(p, s[..|s| - 1]);
    }
  }

  lemma {:induction false} FilterTwice<T>(p: T -> bool, q: T -> bool, r: T -> bool, s: seq<T>)
    requires forall x :: x in s ==> (r(x) <==> p(x) && q(x))
    ensures Filter(p, Filter(q, s)) == Filter(r, s)
  {
    if s != [] {
      var init, last := s[..|s| - 1], s[|s| - 1];
      assert last in s;
      FilterTwice(p, q, r, init);
      FilterAppend(p, Filter(q, init), if q(last) then [last] else []);
    }
  }
}
