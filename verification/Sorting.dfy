/** A stable sort by an arbitrary total order, and when its result does not depend on the input order. */
module Sorting {

  ghost predicate Total<T(!new)>(le: (T, T) -> bool) {
    && (forall x, y :: le(x, y) || le(y, x))
    && (forall x, y, z :: le(x, y) && le(y, z) ==> le(x, z))
  }

  ghost predicate Sorted<T>(q: seq<T>, le: (T, T) -> bool) {
    forall i, j :: 0 <= i < j < |q| ==> le(q[i], q[j])
  }

  /** Inserts after every element that may come before `x`. */
  function Insert<T>(x: T, q: seq<T>, le: (T, T) -> bool): seq<T> {
    if q == [] || le(x, q[0]) then [x] + q else [q[0]] + Insert(x, q[1..], le)
  }

  function Sort<T>(q: seq<T>, le: (T, T) -> bool): seq<T> {
    if q == [] then [] else Insert(q[0], Sort(q[1..], le), le)
  }

  lemma {:induction false} InsertPermutes<T>(x: T, q: seq<T>, le: (T, T) -> bool)
    ensures multiset(Insert(x, q, le)) == multiset{x} + multiset(q)
  {
    if q != [] && !le(x, q[0]) {
      InsertPermutes(x, q[1..], le);
      assert q == [q[0]] + q[1..];
    }
  }

  lemma {:induction false} SortPermutes<T>(q: seq<T>, le: (T, T) -> bool)
    ensures multiset(Sort(q, le)) == multiset(q)
  {
    if q != [] {
      SortPermutes(q[1..], le);
      InsertPermutes(q[0], Sort(q[1..], le), le);
      assert q == [q[0]] + q[1..];
    }
  }

  /** Sorting keeps the elements and the length. */
  lemma SortMembers<T>(q: seq<T>, le: (T, T) -> bool)
    ensures |Sort(q, le)| == |q|
    ensures forall x :: x in Sort(q, le) <==> x in q
  {
    SortPermutes(q, le);
    assert |multiset(Sort(q, le))| == |multiset(q)|;
    forall x ensures x in Sort(q, le) <==> x in q {
      assert x in multiset(q) <==> x in q;
      assert x in multiset(Sort(q, le)) <==> x in Sort(q, le);
    }
  }

  lemma SortKeeps<T>(q: seq<T>, le: (T, T) -> bool, x: T)
    ensures x in Sort(q, le) <==> x in q
  {
    SortPermutes(q, le);
    assert x in multiset(q) <==> x in q;
    assert x in multiset(Sort(q, le)) <==> x in Sort(q, le);
  }

  lemma {:induction false} InsertSorts<T(!new)>(x: T, q: seq<T>, le: (T, T) -> bool)
    requires Total(le) && Sorted(q, le)
    ensures Sorted(Insert(x, q, le), le)
  {
    if q != [] && !le(x, q[0]) {
      InsertSorts(x, q[1..], le);
      InsertPermutes(x, q[1..], le);
      var rest := Insert(x, q[1..], le);
      forall j | 0 <= j < |rest| ensures le(q[0], rest[j]) {
        assert rest[j] in multiset(rest);
        assert rest[j] == x || rest[j] in q[1..];
      }
    } else if q != [] {
      forall j | 0 <= j < |q| ensures le(x, q[j]) {
        assert le(x, q[0]) && (j == 0 || le(q[0], q[j]));
      }
    }
  }

  lemma {:induction false} SortSorts<T(!new)>(q: seq<T>, le: (T, T) -> bool)
    requires Total(le)
    ensures Sorted(Sort(q, le), le)
  {
    if q != [] {
      SortSorts(q[1..], le);
      InsertSorts(q[0], Sort(q[1..], le), le);
    }
  }

  lemma TailLoses<T>(p: seq<T>)
    requires p != []
    ensures multiset(p[1..]) == multiset(p) - multiset{p[0]}
  {
    assert p == [p[0]] + p[1..];
  }

  lemma HeadIsLeast<T(!new)>(p: seq<T>, x: T, le: (T, T) -> bool)
    requires Total(le) && Sorted(p, le) && x in p
    ensures le(p[0], x)
  {
    var i :| 0 <= i < |p| && p[i] == x;
    assert le(x, x);
  }

  lemma SameHead<T(!new)>(p: seq<T>, q: seq<T>, le: (T, T) -> bool)
    requires Total(le) && Sorted(p, le) && Sorted(q, le) && multiset(p) == multiset(q) && p != []
    requires forall x, y :: x in p && y in p && le(x, y) && le(y, x) ==> x == y
    ensures q != [] && p[0] == q[0]
  {
    assert |multiset(p)| == |multiset(q)|;
    assert p[0] in multiset(q) && q[0] in multiset(p);
    HeadIsLeast(p, q[0], le);
    HeadIsLeast(q, p[0], le);
  }

  /** Two sorted arrangements of the same elements agree when equal keys mean equal elements. */
  lemma {:induction false} SortedUnique<T(!new)>(p: seq<T>, q: seq<T>, le: (T, T) -> bool)
    requires Total(le) && Sorted(p, le) && Sorted(q, le) && multiset(p) == multiset(q)
    requires forall x, y :: x in p && y in p && le(x, y) && le(y, x) ==> x == y
    ensures p == q
  {
    hide Total, Sorted;
    if p != [] {
      SameHead(p, q, le);
      TailLoses(p);
      TailLoses(q);
      SortedTail(p, le);
      SortedTail(q, le);
      SortedUnique(p[1..], q[1..], le);
      assert p == [p[0]] + p[1..] && q == [q[0]] + q[1..];
    } else {
      assert |multiset(p)| == |multiset(q)|;
    }
  }

  lemma SortedTail<T>(p: seq<T>, le: (T, T) -> bool)
    requires p != [] && Sorted(p, le)
    ensures Sorted(p[1..], le)
  {
  }

  /** The sorted list does not depend on the order the elements were produced in. */
  lemma SortForgetsOrder<T(!new)>(p: seq<T>, q: seq<T>, le: (T, T) -> bool)
    requires Total(le) && multiset(p) == multiset(q)
    requires forall x, y :: x in p && y in p && le(x, y) && le(y, x) ==> x == y
    ensures Sort(p, le) == Sort(q, le)
  {
    SortSorts(p, le);
    SortSorts(q, le);
    SortPermutes(p, le);
    SortPermutes(q, le);
    SortMembers(p, le);
    SortedUnique(Sort(p, le), Sort(q, le), le);
  }

  /** Sorting leaves a sorted list as it is. */
  lemma {:induction false} SortOfSorted<T>(q: seq<T>, le: (T, T) -> bool)
    requires Sorted(q, le)
    ensures Sort(q, le) == q
  {
    if q != [] {
      SortOfSorted(q[1..], le);
      assert q == [q[0]] + q[1..];
    }
  }

  // ---------- enumerations of a set ----------

  /** `q` lists the elements of `s`, each once: one iteration order. */
  ghost predicate Lists<T(!new)>(q: seq<T>, s: set<T>) {
    && (forall x :: x in q <==> x in s)
    && (forall i, j :: 0 <= i < j < |q| ==> q[i] != q[j])
  }

  lemma {:induction false} ListsCounts<T(!new)>(q: seq<T>, s: set<T>)
    requires Lists(q, s)
    ensures multiset(q) == multiset(s)
  {
    if q == [] {
      assert s == {};
    } else {
      var x, rest := q[0], q[1..];
      assert q == [x] + rest;
      assert Lists(rest, s - {x}) by {
        forall y ensures y in rest <==> y in s - {x} {
          assert y in q <==> y == x || y in rest;
          if x in rest {
            var j :| 0 <= j < |rest| && rest[j] == x;
            assert q[0] != q[j + 1];
          }
        }
      }
      ListsCounts(rest, s - {x});
      assert multiset(s) == multiset{x} + multiset(s - {x});
    }
  }

  lemma SortLists<T(!new)>(q: seq<T>, s: set<T>, le: (T, T) -> bool)
    requires Lists(q, s)
    ensures Lists(Sort(q, le), s)
  {
    var r := Sort(q, le);
    SortMembers(q, le);
    SortPermutes(q, le);
    ListsCounts(q, s);
    forall i, j | 0 <= i < j < |r| ensures r[i] != r[j] {
      if r[i] == r[j] {
        Twice(r, i, j);
      }
    }
  }

  lemma Twice<T>(q: seq<T>, i: nat, j: nat)
    requires i < j < |q| && q[i] == q[j]
    ensures multiset(q)[q[i]] >= 2
  {
    assert q == q[..j] + [q[j]] + q[j + 1..];
    assert q[i] in q[..j];
  }

  function Without<T>(q: seq<T>, j: nat): seq<T>
    requires j < |q|
  {
    q[..j] + q[j + 1..]
  }

  lemma WithoutLoses<T>(q: seq<T>, j: nat)
    requires j < |q|
    ensures multiset(Without(q, j)) == multiset(q) - multiset{q[j]}
  {
    assert q == q[..j] + [q[j]] + q[j + 1..];
  }

  /** Mapping the same elements in another order gives the same results in another order. */
  lemma {:induction false} MapPermutes<T, U>(p: seq<T>, q: seq<T>, mp: seq<U>, mq: seq<U>)
    requires multiset(p) == multiset(q) && |mp| == |p| && |mq| == |q|
    requires forall i, j :: 0 <= i < |p| && 0 <= j < |q| && p[i] == q[j] ==> mp[i] == mq[j]
    ensures multiset(mp) == multiset(mq)
  {
    assert |multiset(p)| == |multiset(q)|;
    if p != [] {
      assert p[0] in multiset(q);
      var j :| 0 <= j < |q| && q[j] == p[0];
      TailLoses(p);
      WithoutLoses(q, j);
      MapPermutesTail(p, q, mp, mq, j);
      MapPermutes(p[1..], Without(q, j), mp[1..], Without(mq, j));
      PutBack(mp, mq, j);
    }
  }

  lemma PutBack<T>(p: seq<T>, q: seq<T>, j: nat)
    requires p != [] && j < |q| && p[0] == q[j] && multiset(p[1..]) == multiset(Without(q, j))
    ensures multiset(p) == multiset(q)
  {
    assert p == [p[0]] + p[1..];
    assert q == q[..j] + [q[j]] + q[j + 1..];
  }

  lemma MapPermutesTail<T, U>(p: seq<T>, q: seq<T>, mp: seq<U>, mq: seq<U>, k: nat)
    requires p != [] && k < |q| && |mp| == |p| && |mq| == |q|
    requires forall i, j :: 0 <= i < |p| && 0 <= j < |q| && p[i] == q[j] ==> mp[i] == mq[j]
    ensures forall i, j :: 0 <= i < |p| - 1 && 0 <= j < |q| - 1 && p[1..][i] == Without(q, k)[j] ==>
            mp[1..][i] == Without(mq, k)[j]
  {
    forall i, j | 0 <= i < |p| - 1 && 0 <= j < |q| - 1 && p[1..][i] == Without(q, k)[j]
      ensures mp[1..][i] == Without(mq, k)[j]
    {
      var j' := if j < k then j else j + 1;
      assert Without(q, k)[j] == q[j'] && Without(mq, k)[j] == mq[j'];
    }
  }

  lemma {:induction false} SubsetSmaller<T>(s: set<T>, t: set<T>)
    requires s <= t
    ensures |s| <= |t| && (s != t ==> |s| < |t|)
  {
    if s != {} {
      var x :| x in s;
      SubsetSmaller(s - {x}, t - {x});
      assert s == t <==> s - {x} == t - {x};
    }
  }

  // ---------- names ----------

  /** What the host supplies: some iteration order for sets of names, and the order of names. */
  datatype Host = Host(names: set<string> -> seq<string>, le: (string, string) -> bool)

  ghost predicate Regular(h: Host) {
    && (forall s :: Lists(h.names(s), s))
    && Total(h.le) && forall x, y :: h.le(x, y) && h.le(y, x) ==> x == y
  }

  /** `sorted(s)` for a set of names. */
  function SortedNames(s: set<string>, h: Host): (r: seq<string>)
    requires Regular(h)
    ensures Lists(r, s) && Sorted(r, h.le)
  {
    var names := h.names(s);
    assert Lists(names, s);
    SortLists(names, s, h.le);
    SortSorts(names, h.le);
    Sort(names, h.le)
  }
}
