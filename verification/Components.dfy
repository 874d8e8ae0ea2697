/**
 Connected components of a finite set of cells under a symmetric adjacency: the search with a stack
 of one study and the search with a queue of another. Both answers satisfy one specification, which
 determines the answer completely, so they are equal.
 */
module Components {
  import opened Sorting
  import opened Graphs

  /** The order the cells are listed in. */
  ghost predicate Linear<T(!new)>(le: (T, T) -> bool) {
    Total(le) && forall x, y :: le(x, y) && le(y, x) ==> x == y
  }

  ghost predicate Symmetric<T(!new)>(adjacent: (T, T) -> bool) {
    forall x, y :: adjacent(x, y) ==> adjacent(y, x)
  }

  ghost predicate Ascending<T(!new)>(q: seq<T>, le: (T, T) -> bool) {
    forall i, j :: 0 <= i < j < |q| ==> le(q[i], q[j]) && q[i] != q[j]
  }

  function Neighbours<T(!new)>(cells: set<T>, adjacent: (T, T) -> bool, c: T): set<T> {
    set d | d in cells && adjacent(c, d)
  }

  ghost function CellGraph<T(!new)>(cells: set<T>, adjacent: (T, T) -> bool): Graph<T> {
    map c | c in cells :: Neighbours(cells, adjacent, c)
  }

  /** A path of adjacent cells, all of them in the set, joins `a` and `b`. */
  ghost predicate Joined<T(!new)>(cells: set<T>, adjacent: (T, T) -> bool, a: T, b: T) {
    Reaches(CellGraph(cells, adjacent), a, b)
  }

  // ---------- the specification ----------

  ghost predicate InSome<T(!new)>(parts: seq<seq<T>>, x: T) {
    exists i :: 0 <= i < |parts| && x in parts[i]
  }

  /** `parts` lists the classes of `same`: each in ascending order, and by their first cells. */
  ghost predicate Classes<T(!new)>(parts: seq<seq<T>>, cells: set<T>, same: (T, T) -> bool, le: (T, T) -> bool) {
    && (forall i :: 0 <= i < |parts| ==> parts[i] != [] && Ascending(parts[i], le))
    && (forall i, x :: 0 <= i < |parts| && x in parts[i] ==> x in cells)
    && (forall x :: x in cells ==> InSome(parts, x))
    && (forall i, j, x, y :: 0 <= i < |parts| && 0 <= j < |parts| && x in parts[i] && y in parts[j] ==>
          (same(x, y) <==> i == j))
    && forall i, j :: 0 <= i < j < |parts| ==> le(parts[i][0], parts[j][0])
  }

  ghost predicate AreComponents<T(!new)>(parts: seq<seq<T>>, cells: set<T>, adjacent: (T, T) -> bool,
      le: (T, T) -> bool)
  {
    Classes(parts, cells, (x, y) => Joined(cells, adjacent, x, y), le)
  }

  // ---------- min, sorted ----------

  method Least<T(==,!new)>(s: set<T>, le: (T, T) -> bool) returns (m: T)
    requires s != {} && Linear(le)
    ensures m in s && forall x :: x in s ==> le(m, x)
  {
    m :| m in s;
    var todo := s - {m};
    while todo != {}
      invariant todo <= s && m in s && m !in todo
      invariant forall x :: x in s && x !in todo ==> le(m, x)
      decreases todo
    {
      var x :| x in todo;
      todo := todo - {x};
      if le(x, m) {
        m := x;
      }
    }
  }

  method SortedList<T(==,!new)>(s: set<T>, le: (T, T) -> bool) returns (q: seq<T>)
    requires Linear(le)
    ensures (forall x :: x in q <==> x in s) && Ascending(q, le)
  {
    q := [];
    var todo := s;
    while todo != {}
      invariant todo <= s && Sorted(q, le) && multiset(q) == multiset(s - todo)
      decreases todo
    {
      var x :| x in todo;
      InsertSorts(x, q, le);
      InsertPermutes(x, q, le);
      assert s - (todo - {x}) == (s - todo) + {x};
      q := Insert(x, q, le);
      todo := todo - {x};
    }
    OnceEach(q, s, le);
  }

  lemma OnceEach<T(!new)>(q: seq<T>, s: set<T>, le: (T, T) -> bool)
    requires Sorted(q, le) && multiset(q) == multiset(s)
    ensures (forall x :: x in q <==> x in s) && Ascending(q, le)
  {
    forall x ensures x in q <==> x in s {
      assert x in q <==> x in multiset(q);
    }
    forall i, j | 0 <= i < j < |q| ensures q[i] != q[j] {
      if q[i] == q[j] {
        Twice(q, i, j);
      }
    }
  }

  // ---------- growing one component ----------

  /** No cell of `part` is adjacent to another cell outside it. */
  ghost predicate Isolated<T(!new)>(part: set<T>, cells: set<T>, adjacent: (T, T) -> bool) {
    part <= cells && forall x, y :: x in part && y in cells && y !in part ==> !adjacent(x, y)
  }

  ghost predicate Spreading<T(!new)>(cells: set<T>, adjacent: (T, T) -> bool, from: set<T>, start: T,
                                     component: set<T>, frontier: seq<T>, remaining: set<T>) {
    && component + remaining == from && component !! remaining && start in component
    && (forall x :: x in frontier ==> x in component)
    && (forall x :: x in component ==> Joined(cells, adjacent, start, x))
    && forall x, y :: x in component && x !in frontier && y in remaining ==> !adjacent(x, y)
  }

  lemma JoinedNext<T(!new)>(cells: set<T>, adjacent: (T, T) -> bool, a: T, b: T, c: T)
    requires Joined(cells, adjacent, a, b) && c in cells && adjacent(b, c)
    ensures Joined(cells, adjacent, a, c)
  {
    var g := CellGraph(cells, adjacent);
    ReachesSplit(g, a, b);
    ReachesEdge(g, b, c);
    ReachesTrans(g, a, b, c);
  }

  lemma SpreadStarts<T(!new)>(cells: set<T>, adjacent: (T, T) -> bool, from: set<T>, start: T)
    requires start in from && from <= cells
    ensures Spreading(cells, adjacent, from, start, {start}, [start], from - {start})
  {
    ReachesRefl(CellGraph(cells, adjacent), start);
  }

  function Elements<T>(q: seq<T>): set<T> {
    set x | x in q
  }

  /** Taking one cell from the frontier and its remaining neighbours into it. */
  lemma SpreadStep<T(!new)>(cells: set<T>, adjacent: (T, T) -> bool, from: set<T>, start: T,
                            component: set<T>, frontier: seq<T>, remaining: set<T>,
                            current: T, found: seq<T>, frontier': seq<T>)
    requires Spreading(cells, adjacent, from, start, component, frontier, remaining) && from <= cells
    requires current in frontier && Elements(found) == Neighbours(remaining, adjacent, current)
    requires forall x :: x in frontier' ==> x in frontier || x in found
    requires forall x :: x in found || (x in frontier && x != current) ==> x in frontier'
    ensures Spreading(cells, adjacent, from, start, component + Elements(found), frontier', remaining - Elements(found))
  {
    forall x | x in found ensures x in remaining && Joined(cells, adjacent, start, x) {
      assert x in Elements(found);
      JoinedNext(cells, adjacent, start, current, x);
    }
    forall x, y | x in component + Elements(found) && x !in frontier' && y in remaining - Elements(found)
      ensures !adjacent(x, y)
    {
      assert x == current ==> y !in Neighbours(remaining, adjacent, current);
    }
  }

  /** With nothing left to look at, the component is exactly what a path joins to the start. */
  lemma SpreadEnds<T(!new)>(cells: set<T>, adjacent: (T, T) -> bool, from: set<T>, start: T,
                            component: set<T>, remaining: set<T>)
    requires Spreading(cells, adjacent, from, start, component, [], remaining)
    requires Isolated(from, cells, adjacent) && Symmetric(adjacent)
    ensures forall x :: x in component <==> Joined(cells, adjacent, start, x)
    ensures Isolated(remaining, cells, adjacent)
  {
    var g := CellGraph(cells, adjacent);
    forall n | n in component && n in g ensures g[n] * g.Keys <= component {
      forall y | y in g[n] * g.Keys ensures y in component {
        assert adjacent(n, y);
      }
    }
    forall x | Joined(cells, adjacent, start, x) ensures x in component {
      ReachesStaysIn(g, component, start, x);
    }
    forall x, y | x in remaining && y in cells && y !in remaining ensures !adjacent(x, y) {
      assert y in component ==> !adjacent(y, x);
    }
  }

  lemma RemainingShrinks<T(!new)>(remaining: set<T>, found: seq<T>)
    requires forall x :: x in found ==> x in remaining
    ensures if found == [] then remaining - Elements(found) == remaining else remaining - Elements(found) < remaining
  {
    if found != [] {
      assert found[0] in Elements(found);
    }
  }

  /** One component, exploring the newest cell first. */
  method GatherByStack<T(==,!new)>(start: T, from: set<T>, adjacent: (T, T) -> bool, le: (T, T) -> bool,
      ghost cells: set<T>)
      returns (component: set<T>, remaining: set<T>)
    requires Linear(le) && Symmetric(adjacent) && start in from && Isolated(from, cells, adjacent)
    ensures component <= from && remaining == from - component
    ensures forall x :: x in component <==> Joined(cells, adjacent, start, x)
    ensures Isolated(remaining, cells, adjacent)
  {
    hide Joined, Linear, Symmetric, Sorted;
    component, remaining := {start}, from - {start};
    var frontier := [start];
    SpreadStarts(cells, adjacent, from, start);
    while frontier != []
      invariant Spreading(cells, adjacent, from, start, component, frontier, remaining)
      decreases remaining, |frontier|
    {
      var current := frontier[|frontier| - 1];
      ghost var frontier0, component0, remaining0 := frontier, component, remaining;
      frontier := frontier[..|frontier| - 1];
      ghost var rest := frontier;
      assert frontier0 == rest + [current];
      var found := SortedList(Neighbours(remaining, adjacent, current), le);
      for k := 0 to |found|
        invariant remaining == remaining0 - Elements(found[..k]) && component == component0 + Elements(found[..k])
        invariant frontier == rest + found[..k]
      {
        assert found[..k + 1] == found[..k] + [found[k]];
        remaining := remaining - {found[k]};
        component := component + {found[k]};
        frontier := frontier + [found[k]];
      }
      assert found[..|found|] == found;
      SpreadStep(cells, adjacent, from, start, component0, frontier0, remaining0, current, found, frontier);
      RemainingShrinks(remaining0, found);
    }
    SpreadEnds(cells, adjacent, from, start, component, remaining);
  }

  /** One component, exploring the oldest cell first; the component is a list in the order of discovery. */
  method GatherByQueue<T(==,!new)>(start: T, from: set<T>, adjacent: (T, T) -> bool, le: (T, T) -> bool,
      ghost cells: set<T>)
      returns (component: seq<T>, remaining: set<T>)
    requires Linear(le) && Symmetric(adjacent) && start in from && Isolated(from, cells, adjacent)
    ensures Elements(component) <= from && remaining == from - Elements(component)
    ensures forall x :: x in component <==> Joined(cells, adjacent, start, x)
    ensures forall i, j :: 0 <= i < j < |component| ==> component[i] != component[j]
    ensures Isolated(remaining, cells, adjacent)
  {
    hide Joined, Linear, Symmetric, Sorted;
    var queue := [start];
    remaining := from - {start};
    component := [start];
    SpreadStarts(cells, adjacent, from, start);
    assert Elements(component) == {start};
    while queue != []
      invariant Spreading(cells, adjacent, from, start, Elements(component), queue, remaining)
      invariant forall i, j :: 0 <= i < j < |component| ==> component[i] != component[j]
      decreases remaining, |queue|
    {
      var current := queue[0];
      ghost var queue0, component0, remaining0 := queue, component, remaining;
      queue := queue[1..];
      ghost var rest := queue;
      assert queue0 == [current] + rest;
      var found := SortedList(Neighbours(remaining, adjacent, current), le);
      for k := 0 to |found|
        invariant remaining == remaining0 - Elements(found[..k]) && component == component0 + found[..k]
        invariant queue == rest + found[..k]
      {
        assert found[..k + 1] == found[..k] + [found[k]];
        remaining := remaining - {found[k]};
        queue := queue + [found[k]];
        component := component + [found[k]];
      }
      assert found[..|found|] == found;
      assert Elements(component) == Elements(component0) + Elements(found);
      SpreadStep(cells, adjacent, from, start, Elements(component0), queue0, remaining0, current, found, queue);
      NewOnesDiffer(component0, found, remaining0);
      RemainingShrinks(remaining0, found);
    }
    SpreadEnds(cells, adjacent, from, start, Elements(component), remaining);
  }

  lemma NewOnesDiffer<T(!new)>(before: seq<T>, found: seq<T>, remaining: set<T>)
    requires forall i, j :: 0 <= i < j < |before| ==> before[i] != before[j]
    requires forall i, j :: 0 <= i < j < |found| ==> found[i] != found[j]
    requires forall x :: x in found ==> x in remaining
    requires forall x :: x in before ==> x !in remaining
    ensures var q := before + found; forall i, j :: 0 <= i < j < |q| ==> q[i] != q[j]
  {
    var q := before + found;
    forall i, j | 0 <= i < j < |q| ensures q[i] != q[j] {
      if i < |before| <= j {
        assert before[i] in before && found[j - |before|] in found;
      }
    }
  }

  // ---------- one component after the other ----------

  /** The parts found so far, and what is left. */
  ghost predicate Peeled<T(!new)>(parts: seq<seq<T>>, remaining: set<T>, cells: set<T>, adjacent: (T, T) -> bool,
      le: (T, T) -> bool)
  {
    && Isolated(remaining, cells, adjacent)
    && Classes(parts, cells - remaining, (x, y) => Joined(cells, adjacent, x, y), le)
    && forall i, y :: 0 <= i < |parts| && y in remaining ==> le(parts[i][0], y)
  }

  lemma JoinedBack<T(!new)>(cells: set<T>, adjacent: (T, T) -> bool, a: T, b: T)
    requires Symmetric(adjacent) && Joined(cells, adjacent, a, b)
    ensures Joined(cells, adjacent, b, a)
  {
    var g := CellGraph(cells, adjacent);
    var steps :| Walk(g, a, steps, b);
    WalkBack(cells, adjacent, a, steps, b);
  }

  lemma {:induction false} WalkBack<T(!new)>(cells: set<T>, adjacent: (T, T) -> bool, a: T, steps: seq<T>, b: T)
    requires Symmetric(adjacent) && Walk(CellGraph(cells, adjacent), a, steps, b)
    ensures Joined(cells, adjacent, b, a)
    decreases |steps|
  {
    var g := CellGraph(cells, adjacent);
    if steps == [] {
      ReachesRefl(g, a);
    } else {
      WalkEnds(g, steps[0], steps[1..], b);
      WalkBack(cells, adjacent, steps[0], steps[1..], b);
      JoinedNext(cells, adjacent, b, steps[0], a);
    }
  }

  lemma ClassesAdd<T(!new)>(parts: seq<seq<T>>, cells: set<T>, same: (T, T) -> bool, le: (T, T) -> bool, part: seq<T>)
    requires Classes(parts, cells, same, le) && part != [] && Ascending(part, le)
    requires forall x, y :: x in part && y in part ==> same(x, y)
    requires forall x, y :: x in cells && y in part ==> !same(x, y) && !same(y, x)
    requires forall i :: 0 <= i < |parts| ==> le(parts[i][0], part[0])
    ensures Classes(parts + [part], cells + Elements(part), same, le)
  {
    var all := parts + [part];
    forall x | x in cells + Elements(part) ensures InSome(all, x) {
      if x in cells {
        var i :| 0 <= i < |parts| && x in parts[i];
        assert x in all[i];
      } else {
        assert x in all[|parts|];
      }
    }
    forall i, x | 0 <= i < |all| && x in all[i] ensures x in cells + Elements(part) {
      assert i < |parts| ==> x in parts[i];
    }
    forall i, j, x, y | 0 <= i < |all| && 0 <= j < |all| && x in all[i] && y in all[j]
      ensures same(x, y) <==> i == j
    {
      assert i < |parts| ==> x in parts[i];
      assert j < |parts| ==> y in parts[j];
    }
  }

  /** What a path joins to a cell that was left is left too. */
  lemma PeelOne<T(!new)>(parts: seq<seq<T>>, remaining: set<T>, cells: set<T>, adjacent: (T, T) -> bool,
      le: (T, T) -> bool, start: T, part: seq<T>, remaining': set<T>)
    requires Linear(le) && Symmetric(adjacent) && Peeled(parts, remaining, cells, adjacent, le)
    requires start in remaining && forall x :: x in remaining ==> le(start, x)
    requires Ascending(part, le) && (forall x :: x in part <==> Joined(cells, adjacent, start, x))
    requires Elements(part) <= remaining && remaining' == remaining - Elements(part)
    requires Isolated(remaining', cells, adjacent)
    ensures Peeled(parts + [part], remaining', cells, adjacent, le)
  {
    hide Joined, Classes;
    var same := (x, y) => Joined(cells, adjacent, x, y);
    StartIsJoined(cells, adjacent, start);
    assert start in part && part[0] in Elements(part);
    FirstIsLeast(part, start, le);
    forall x, y | x in part && y in part ensures same(x, y) {
      JoinedBack(cells, adjacent, start, x);
      JoinedTrans(cells, adjacent, x, start, y);
    }
    forall x, y | x in cells - remaining && y in part ensures !same(x, y) && !same(y, x) {
      OnlyInPart(remaining, cells, adjacent, start, part, x, y);
    }
    ClassesAdd(parts, cells - remaining, same, le, part);
    assert (cells - remaining) + Elements(part) == cells - remaining';
  }

  lemma OnlyInPart<T(!new)>(remaining: set<T>, cells: set<T>, adjacent: (T, T) -> bool, start: T, part: seq<T>, x: T,
      y: T)
    requires Symmetric(adjacent) && Elements(part) <= remaining && x !in remaining && y in part
    requires forall z :: z in part <==> Joined(cells, adjacent, start, z)
    ensures !Joined(cells, adjacent, x, y) && !Joined(cells, adjacent, y, x)
  {
    hide Joined;
    assert x !in Elements(part);
    if Joined(cells, adjacent, x, y) {
      JoinedBack(cells, adjacent, x, y);
    }
    if Joined(cells, adjacent, y, x) {
      JoinedTrans(cells, adjacent, start, y, x);
    }
  }

  lemma StartIsJoined<T(!new)>(cells: set<T>, adjacent: (T, T) -> bool, a: T)
    requires a in cells
    ensures Joined(cells, adjacent, a, a)
  {
    ReachesRefl(CellGraph(cells, adjacent), a);
  }

  lemma JoinedTrans<T(!new)>(cells: set<T>, adjacent: (T, T) -> bool, a: T, b: T, c: T)
    requires Joined(cells, adjacent, a, b) && Joined(cells, adjacent, b, c)
    ensures Joined(cells, adjacent, a, c)
  {
    ReachesTrans(CellGraph(cells, adjacent), a, b, c);
  }

  lemma FirstIsLeast<T(!new)>(part: seq<T>, least: T, le: (T, T) -> bool)
    requires Linear(le) && Ascending(part, le) && least in part && le(least, part[0])
    ensures part[0] == least
  {
    var i :| 0 <= i < |part| && part[i] == least;
  }

  /** Parts compared by their first cells. */
  function ByFirst<T>(le: (T, T) -> bool): (seq<T>, seq<T>) -> bool {
    (p, q) => p == [] || (q != [] && le(p[0], q[0]))
  }

  lemma PeeledIsDone<T(!new)>(parts: seq<seq<T>>, cells: set<T>, adjacent: (T, T) -> bool, le: (T, T) -> bool)
    requires Peeled(parts, {}, cells, adjacent, le)
    ensures AreComponents(parts, cells, adjacent, le) && Sort(parts, ByFirst(le)) == parts
  {
    assert cells - {} == cells;
    SortOfSorted(parts, ByFirst(le));
  }

  /** The search with a stack. */
  method ComponentsByStack<T(==,!new)>(cells: set<T>, adjacent: (T, T) -> bool, le: (T, T) -> bool)
    returns (components: seq<seq<T>>)
    requires Linear(le) && Symmetric(adjacent)
    ensures AreComponents(components, cells, adjacent, le)
  {
    components := [];
    var remaining := cells;
    while remaining != {}
      invariant Peeled(components, remaining, cells, adjacent, le)
      decreases remaining
    {
      var start := Least(remaining, le);
      ReachesRefl(CellGraph(cells, adjacent), start);
      var component, rest := GatherByStack(start, remaining, adjacent, le, cells);
      var part := SortedList(component, le);
      assert Elements(part) == component;
      PeelOne(components, remaining, cells, adjacent, le, start, part, rest);
      remaining := rest;
      components := components + [part];
    }
    PeeledIsDone(components, cells, adjacent, le);
    components := Sort(components, ByFirst(le));
  }

  /** The search with a queue. */
  method ComponentsByQueue<T(==,!new)>(cells: set<T>, adjacent: (T, T) -> bool, le: (T, T) -> bool)
    returns (components: seq<seq<T>>)
    requires Linear(le) && Symmetric(adjacent)
    ensures AreComponents(components, cells, adjacent, le)
  {
    components := [];
    var remaining := cells;
    while remaining != {}
      invariant Peeled(components, remaining, cells, adjacent, le)
      decreases remaining
    {
      var start := Least(remaining, le);
      ReachesRefl(CellGraph(cells, adjacent), start);
      var component, rest := GatherByQueue(start, remaining, adjacent, le, cells);
      var part := Sort(component, le);
      SortedPart(component, le);
      PeelOne(components, remaining, cells, adjacent, le, start, part, rest);
      remaining := rest;
      components := components + [part];
    }
    PeeledIsDone(components, cells, adjacent, le);
    components := Sort(components, ByFirst(le));
  }

  lemma SortedPart<T(!new)>(component: seq<T>, le: (T, T) -> bool)
    requires Linear(le) && forall i, j :: 0 <= i < j < |component| ==> component[i] != component[j]
    ensures Ascending(Sort(component, le), le) && (forall x :: x in Sort(component, le) <==> x in component)
    ensures Elements(Sort(component, le)) == Elements(component)
  {
    SortSorts(component, le);
    SortMembers(component, le);
    assert Lists(component, Elements(component));
    SortLists(component, Elements(component), le);
  }

  // ---------- the specification has one solution ----------

  lemma LeastOfAll<T(!new)>(p: seq<seq<T>>, cells: set<T>, same: (T, T) -> bool, le: (T, T) -> bool, x: T)
    requires Linear(le) && Classes(p, cells, same, le) && x in cells
    ensures p != [] && le(p[0][0], x)
  {
    var i :| 0 <= i < |p| && x in p[i];
    var k :| 0 <= k < |p[i]| && p[i][k] == x;
    assert le(p[i][0], p[i][0]) && le(p[i][0], x);
    if i > 0 {
      assert le(p[0][0], p[i][0]);
    }
  }

  lemma FirstPartsAgree<T(!new)>(p: seq<seq<T>>, q: seq<seq<T>>, cells: set<T>, same: (T, T) -> bool,
      le: (T, T) -> bool)
    requires Linear(le) && Classes(p, cells, same, le) && Classes(q, cells, same, le) && p != []
    ensures q != [] && p[0] == q[0]
  {
    LeastOfAll(q, cells, same, le, p[0][0]);
    LeastOfAll(p, cells, same, le, q[0][0]);
    var first := p[0][0];
    assert q[0][0] == first;
    SameMembers(p, q, cells, same, le, first);
    SameMembers(q, p, cells, same, le, first);
    OneArrangement(p[0], q[0], le);
  }

  lemma SameMembers<T(!new)>(p: seq<seq<T>>, q: seq<seq<T>>, cells: set<T>, same: (T, T) -> bool, le: (T, T) -> bool,
      first: T)
    requires Classes(p, cells, same, le) && Classes(q, cells, same, le) && p != [] && q != []
    requires p[0][0] == first == q[0][0]
    ensures forall x :: x in p[0] ==> x in q[0]
  {
    forall x | x in p[0] ensures x in q[0] {
      assert first in p[0] && first in q[0] && same(first, x) && InSome(q, x);
      var i :| 0 <= i < |q| && x in q[i];
    }
  }

  lemma OneArrangement<T(!new)>(p: seq<T>, q: seq<T>, le: (T, T) -> bool)
    requires Linear(le) && Ascending(p, le) && Ascending(q, le) && forall x :: x in p <==> x in q
    ensures p == q
  {
    ListsCounts(p, Elements(p));
    assert Lists(q, Elements(p));
    ListsCounts(q, Elements(p));
    SortedUnique(p, q, le);
  }

  lemma InOnePart<T(!new)>(p: seq<seq<T>>, cells: set<T>, same: (T, T) -> bool, le: (T, T) -> bool, x: T)
    requires Classes(p, cells, same, le)
    ensures forall i, j :: 0 <= i < |p| && 0 <= j < |p| && x in p[i] && x in p[j] ==> i == j
  {
    forall i, j | 0 <= i < |p| && 0 <= j < |p| && x in p[i] && x in p[j] ensures i == j {
      assert same(x, x) <==> i == j;
      assert same(x, x) <==> i == i;
    }
  }

  lemma ClassesTail<T(!new)>(p: seq<seq<T>>, cells: set<T>, same: (T, T) -> bool, le: (T, T) -> bool)
    requires Classes(p, cells, same, le) && p != []
    ensures Classes(p[1..], cells - Elements(p[0]), same, le)
  {
    var r := p[1..];
    forall i, x | 0 <= i < |r| && x in r[i] ensures x in cells - Elements(p[0]) {
      assert x in p[i + 1];
      InOnePart(p, cells, same, le, x);
    }
    forall x | x in cells - Elements(p[0]) ensures InSome(r, x) {
      var i :| 0 <= i < |p| && x in p[i];
      assert x in r[i - 1];
    }
    forall i, j, x, y | 0 <= i < |r| && 0 <= j < |r| && x in r[i] && y in r[j] ensures same(x, y) <==> i == j {
      assert x in p[i + 1] && y in p[j + 1];
    }
  }

  /** Only one list of lists meets the specification. */
  lemma {:induction false} ClassesUnique<T(!new)>(p: seq<seq<T>>, q: seq<seq<T>>, cells: set<T>, same: (T, T) -> bool,
      le: (T, T) -> bool)
    requires Linear(le) && Classes(p, cells, same, le) && Classes(q, cells, same, le)
    ensures p == q
    decreases |p|
  {
    if p == [] {
      if q != [] {
        LeastOfAll(p, cells, same, le, q[0][0]);
      }
    } else {
      FirstPartsAgree(p, q, cells, same, le);
      ClassesTail(p, cells, same, le);
      ClassesTail(q, cells, same, le);
      ClassesUnique(p[1..], q[1..], cells - Elements(p[0]), same, le);
      assert p == [p[0]] + p[1..] && q == [q[0]] + q[1..];
    }
  }

  /** Hence the stack search and the queue search give the same answer, whatever order they explore in. */
  lemma ComponentsUnique<T(!new)>(p: seq<seq<T>>, q: seq<seq<T>>, cells: set<T>, adjacent: (T, T) -> bool,
      le: (T, T) -> bool)
    requires Linear(le) && AreComponents(p, cells, adjacent, le) && AreComponents(q, cells, adjacent, le)
    ensures p == q
  {
    ClassesUnique(p, q, cells, (x, y) => Joined(cells, adjacent, x, y), le);
  }

  // ---------- the cells of the studies ----------

  /** A cell by its position on each axis; studies with two axes leave the third at zero. */
  datatype Cell = Cell(row: nat, column: nat, plane: nat)

  function Distance(a: nat, b: nat): nat {
    if a <= b then b - a else a - b
  }

  /** One step on the grid: the rule of the studies that search with a queue. */
  predicate StepAway(a: Cell, b: Cell) {
    a.plane == b.plane && Distance(a.row, b.row) + Distance(a.column, b.column) == 1
  }

  /** The rule of the study that searches with a stack. */
  predicate SharesASide(a: Cell, b: Cell) {
    && a != b && a.plane == b.plane
    && (  (Distance(a.row, b.row) == 1 && a.column == b.column)
       || (a.row == b.row && Distance(a.column, b.column) == 1))
  }

  /** The order of tuples. */
  predicate Before(a: Cell, b: Cell) {
    a.row < b.row || (a.row == b.row && (a.column < b.column || (a.column == b.column && a.plane <= b.plane)))
  }

  lemma GridMeetsTheConditions()
    ensures Symmetric(StepAway) && Symmetric(SharesASide) && Linear(Before)
    ensures forall a, b :: StepAway(a, b) <==> SharesASide(a, b)
  {
    assert forall x, y :: Before(x, y) || Before(y, x);
  }

  lemma SameGraph(cells: set<Cell>)
    ensures CellGraph(cells, StepAway) == CellGraph(cells, SharesASide)
  {
    forall c | c in cells ensures Neighbours(cells, StepAway, c) == Neighbours(cells, SharesASide, c) {
    }
  }

  lemma ClassesOfTheSameRelation<T(!new)>(p: seq<seq<T>>, cells: set<T>, same: (T, T) -> bool, other: (T, T) -> bool,
                                          le: (T, T) -> bool)
    requires Classes(p, cells, same, le) && forall x, y :: same(x, y) == other(x, y)
    ensures Classes(p, cells, other, le)
  {
  }

  /** On any set of grid cells the two searches, each with its own rule, return the same components. */
  lemma SearchesAgree(p: seq<seq<Cell>>, q: seq<seq<Cell>>, cells: set<Cell>)
    requires AreComponents(p, cells, SharesASide, Before) && AreComponents(q, cells, StepAway, Before)
    ensures p == q
  {
    hide Classes;
    GridMeetsTheConditions();
    SameGraph(cells);
    var sides := (x, y) => Joined(cells, SharesASide, x, y);
    var steps := (x, y) => Joined(cells, StepAway, x, y);
    ClassesOfTheSameRelation(p, cells, sides, steps, Before);
    ClassesUnique(p, q, cells, steps, Before);
  }
}
