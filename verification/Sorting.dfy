/** Python's stable `sorted`, as an insertion sort over an arbitrary total preorder. */
module Sorting {

  /** A total, transitive relation; two different values may be equivalent under it. */
  ghost predicate TotalPreorder<T(!new)>(le: (T, T) -> bool) {
    && (forall x, y :: le(x, y) || le(y, x))
    && (forall x, y, z :: le(x, y) && le(y, z) ==> le(x, z))
  }

  ghost predicate Sorted<T>(s: seq<T>, le: (T, T) -> bool) {
    forall i, j :: 0 <= i < j < |s| ==> le(s[i], s[j])
  }

  /** No two different elements of `s` are equivalent. */
  ghost predicate Strict<T(!new)>(s: seq<T>, le: (T, T) -> bool) {
    forall x, y :: x in s && y in s && le(x, y) && le(y, x) ==> x == y
  }

  function Insert<T>(x: T, s: seq<T>, le: (T, T) -> bool): seq<T> {
    if s == [] then [x]
    else if le(x, s[0]) then [x] + s
    else [s[0]] + Insert(x, s[1..], le)
  }

  function Sort<T>(s: seq<T>, le: (T, T) -> bool): seq<T> {
    if s == [] then [] else Insert(s[0], Sort(s[1..], le), le)
  }

  lemma {:induction false} InsertPermutes<T>(x: T, s: seq<T>, le: (T, T) -> bool)
    ensures multiset(Insert(x, s, le)) == multiset{x} + multiset(s)
  {
    if s != [] && !le(x, s[0]) {
      InsertPermutes(x, s[1..], le);
      assert s == [s[0]] + s[1..];
    }
  }

  lemma {:induction false} SortPermutes<T>(s: seq<T>, le: (T, T) -> bool)
    ensures multiset(Sort(s, le)) == multiset(s)
    ensures |Sort(s, le)| == |s|
  {
    if s != [] {
      SortPermutes(s[1..], le);
      InsertPermutes(s[0], Sort(s[1..], le), le);
      assert s == [s[0]] + s[1..];
    }
    assert |multiset(Sort(s, le))| == |multiset(s)|;
  }

  lemma {:induction false} InsertSorts<T(!new)>(x: T, s: seq<T>, le: (T, T) -> bool)
    requires TotalPreorder(le) && Sorted(s, le)
    ensures Sorted(Insert(x, s, le), le)
  {
    if s != [] && !le(x, s[0]) {
      InsertSorts(x, s[1..], le);
      InsertPermutes(x, s[1..], le);
      var t := Insert(x, s[1..], le);
      forall k | 0 <= k < |t| ensures le(s[0], t[k]) {
        assert t[k] in multiset(t);
        assert t[k] == x || t[k] in s[1..];
      }
    } else if s != [] {
      forall k | 0 <= k < |s| ensures le(x, s[k]) {
        assert k == 0 || le(s[0], s[k]);
      }
    }
  }

  lemma {:induction false} SortSorts<T(!new)>(s: seq<T>, le: (T, T) -> bool)
    requires TotalPreorder(le)
    ensures Sorted(Sort(s, le), le)
  {
    if s != [] {
      SortSorts(s[1..], le);
      InsertSorts(s[0], Sort(s[1..], le), le);
    }
  }

  /** In order, and equivalent elements in the order `tie`. */
  ghost predicate StablySorted<T>(s: seq<T>, le: (T, T) -> bool, tie: (T, T) -> bool) {
    forall i, j :: 0 <= i < j < |s| ==> le(s[i], s[j]) && (le(s[j], s[i]) ==> tie(s[i], s[j]))
  }

  lemma InFrontIsStable<T(!new)>(x: T, s: seq<T>, le: (T, T) -> bool, tie: (T, T) -> bool)
    requires StablySorted(s, le, tie) && forall y :: y in s ==> le(x, y) && (le(y, x) ==> tie(x, y))
    ensures StablySorted([x] + s, le, tie)
  {
    var t := [x] + s;
    forall i, j | 0 <= i < j < |t| ensures le(t[i], t[j]) && (le(t[j], t[i]) ==> tie(t[i], t[j])) {
      assert t[j] == s[j - 1];
    }
  }

  lemma {:induction false} InsertIsStable<T(!new)>(x: T, s: seq<T>, le: (T, T) -> bool, tie: (T, T) -> bool)
    requires TotalPreorder(le) && StablySorted(s, le, tie) && forall y :: y in s ==> tie(x, y)
    ensures StablySorted(Insert(x, s, le), le, tie)
  {
    if s != [] && !le(x, s[0]) {
      var rest := s[1..];
      InsertIsStable(x, rest, le, tie);
      InsertPermutes(x, rest, le);
      var t := Insert(x, rest, le);
      forall y | y in t ensures le(s[0], y) && (le(y, s[0]) ==> tie(s[0], y)) {
        assert y in multiset(t);
        if y != x {
          var l :| 0 <= l < |rest| && rest[l] == y;
          assert s[l + 1] == y;
        }
      }
      hide Insert;
      InFrontIsStable(s[0], t, le, tie);
    } else {
      forall y | y in s ensures le(x, y) {
        var l :| 0 <= l < |s| && s[l] == y;
        assert l == 0 || le(s[0], s[l]);
      }
      InFrontIsStable(x, s, le, tie);
      assert [x] + [] == [x];
    }
  }

  /** Sorting is stable: equivalent elements keep an order that the list had before. */
  lemma {:induction false} SortIsStable<T(!new)>(s: seq<T>, le: (T, T) -> bool, tie: (T, T) -> bool)
    requires TotalPreorder(le) && Sorted(s, tie)
    ensures StablySorted(Sort(s, le), le, tie)
  {
    if s != [] {
      var rest := s[1..];
      SortIsStable(rest, le, tie);
      SortPermutes(rest, le);
      forall y | y in Sort(rest, le) ensures tie(s[0], y) {
        assert y in multiset(Sort(rest, le));
        var l :| 0 <= l < |rest| && rest[l] == y;
        assert tie(s[0], s[l + 1]);
      }
      InsertIsStable(s[0], Sort(rest, le), le, tie);
    }
  }

  /** The first of the sorted elements is one of them, and before or equivalent to all. */
  lemma FirstIsLeast<T(!new)>(s: seq<T>, le: (T, T) -> bool)
    requires TotalPreorder(le) && s != []
    ensures |Sort(s, le)| == |s| && Sort(s, le)[0] in s
    ensures forall w :: w in s ==> le(Sort(s, le)[0], w)
  {
    var t := Sort(s, le);
    SortPermutes(s, le);
    SortSorts(s, le);
    hide Sort;
    assert t[0] in multiset(t);
    forall w | w in s ensures le(t[0], w) {
      assert w in multiset(t);
      var k :| 0 <= k < |t| && t[k] == w;
    }
  }

  lemma RestIsSame<T>(a: seq<T>, b: seq<T>)
    requires a != [] && b != [] && a[0] == b[0] && multiset(a) == multiset(b)
    ensures multiset(a[1..]) == multiset(b[1..])
  {
    assert a == [a[0]] + a[1..] && b == [b[0]] + b[1..];
    assert multiset(a[1..]) == multiset(a) - multiset{a[0]} == multiset(b) - multiset{b[0]} == multiset(b[1..]);
  }

  lemma SmallestFirst<T>(a: seq<T>, b: seq<T>, le: (T, T) -> bool)
    requires Sorted(b, le) && a != [] && b != [] && multiset(a) == multiset(b)
    requires forall x :: le(x, x)
    ensures le(b[0], a[0])
  {
    assert a[0] in multiset(b);
    var k :| 0 <= k < |b| && b[k] == a[0];
  }

  /** A sorted arrangement of pairwise inequivalent elements is unique. */
  lemma {:induction false} SortedUnique<T(!new)>(a: seq<T>, b: seq<T>, le: (T, T) -> bool)
    requires Sorted(a, le) && Sorted(b, le)
    requires TotalPreorder(le) && Strict(a, le)
    requires multiset(a) == multiset(b)
    ensures a == b
  {
    assert |multiset(a)| == |multiset(b)|;
    if a != [] {
      SmallestFirst(a, b, le);
      SmallestFirst(b, a, le);
      assert b[0] in a by {
        assert b[0] in multiset(a);
      }
      RestIsSame(a, b);
      SortedUnique(a[1..], b[1..], le);
      assert a == [a[0]] + a[1..] && b == [b[0]] + b[1..];
    }
  }

  /** Over an antisymmetric order, comparing sorted lists is comparing multisets. */
  lemma SortEqualIffSameElements<T(!new)>(a: seq<T>, b: seq<T>, le: (T, T) -> bool)
    requires TotalPreorder(le) && Strict(a, le)
    ensures Sort(a, le) == Sort(b, le) <==> multiset(a) == multiset(b)
  {
    SortPermutes(a, le);
    SortPermutes(b, le);
    if multiset(a) == multiset(b) {
      SortSorts(a, le);
      SortSorts(b, le);
      forall x, y | x in Sort(a, le) && y in Sort(a, le) && le(x, y) && le(y, x) ensures x == y {
        assert x in multiset(Sort(a, le)) && y in multiset(Sort(a, le));
        assert x in a && y in a;
      }
      SortedUnique(Sort(a, le), Sort(b, le), le);
    }
  }

}
