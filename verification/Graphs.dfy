/**
 Finite directed graphs as maps from a node to the set of its successors: walks, reachability
 and cycles, the two searches the core runs over them, and what adding a fresh node changes.
 */
module Graphs {

  type Graph<T(==)> = map<T, set<T>>

  /** `steps` leads from `a` to `b` along edges of `g`; every node on the way belongs to `g`. */
  ghost predicate Walk<T>(g: Graph<T>, a: T, steps: seq<T>, b: T)
    decreases |steps|
  {
    a in g && if steps == [] then a == b else steps[0] in g[a] && Walk(g, steps[0], steps[1..], b)
  }

  ghost predicate Reaches<T(!new)>(g: Graph<T>, a: T, b: T) {
    exists steps :: Walk(g, a, steps, b)
  }

  ghost predicate CycleAt<T(!new)>(g: Graph<T>, a: T) {
    exists steps :: steps != [] && Walk(g, a, steps, a)
  }

  ghost predicate HasCycle<T(!new)>(g: Graph<T>) {
    exists a :: CycleAt(g, a)
  }

  /** No edge leaves the graph. */
  ghost predicate Closed<T(!new)>(g: Graph<T>) {
    forall n :: n in g ==> g[n] <= g.Keys
  }

  lemma {:induction false} WalkEnds<T>(g: Graph<T>, a: T, steps: seq<T>, b: T)
    requires Walk(g, a, steps, b)
    ensures a in g && b in g
    decreases |steps|
  {
    if steps != [] {
      WalkEnds(g, steps[0], steps[1..], b);
    }
  }

  lemma {:induction false} WalkJoin<T>(g: Graph<T>, a: T, s: seq<T>, b: T, t: seq<T>, c: T)
    requires Walk(g, a, s, b) && Walk(g, b, t, c)
    ensures Walk(g, a, s + t, c)
    decreases |s|
  {
    if s == [] {
      assert s + t == t;
    } else {
      WalkJoin(g, s[0], s[1..], b, t, c);
      assert (s + t)[1..] == s[1..] + t;
    }
  }

  lemma ReachesRefl<T(!new)>(g: Graph<T>, a: T)
    requires a in g
    ensures Reaches(g, a, a)
  {
    assert Walk(g, a, [], a);
  }

  lemma ReachesTrans<T(!new)>(g: Graph<T>, a: T, b: T, c: T)
    requires Reaches(g, a, b) && Reaches(g, b, c)
    ensures Reaches(g, a, c)
  {
    var s :| Walk(g, a, s, b);
    var t :| Walk(g, b, t, c);
    WalkJoin(g, a, s, b, t, c);
  }

  lemma ReachesEdge<T(!new)>(g: Graph<T>, a: T, b: T)
    requires a in g && b in g && b in g[a]
    ensures Reaches(g, a, b)
  {
    assert Walk(g, b, [b][1..], b);
    assert Walk(g, a, [b], b);
  }

  /** A reachability fact either is trivial or starts with some edge. */
  lemma ReachesSplit<T(!new)>(g: Graph<T>, a: T, b: T)
    requires Reaches(g, a, b)
    ensures a in g && b in g
    ensures a == b || exists n :: n in g[a] && Reaches(g, n, b)
  {
    var s :| Walk(g, a, s, b);
    WalkEnds(g, a, s, b);
    if s != [] {
      assert Walk(g, s[0], s[1..], b);
    }
  }

  lemma CycleFromEdge<T(!new)>(g: Graph<T>, a: T, n: T)
    requires a in g && n in g[a] && Reaches(g, n, a)
    ensures CycleAt(g, a) && HasCycle(g)
  {
    var s :| Walk(g, n, s, a);
    assert ([n] + s)[1..] == s;
    assert Walk(g, a, [n] + s, a);
  }

  lemma CycleHasEdge<T(!new)>(g: Graph<T>, a: T)
    requires CycleAt(g, a)
    ensures a in g && exists n :: n in g[a] && Reaches(g, n, a)
  {
    var s :| s != [] && Walk(g, a, s, a);
    assert Walk(g, s[0], s[1..], a);
  }

  /** What a walk from inside a successor-closed set can reach. */
  lemma {:induction false} WalkStaysIn<T(!new)>(g: Graph<T>, inside: set<T>, a: T, steps: seq<T>, b: T)
    requires forall n :: n in inside && n in g ==> g[n] * g.Keys <= inside
    requires a in inside && Walk(g, a, steps, b)
    ensures b in inside
    decreases |steps|
  {
    if steps != [] {
      WalkEnds(g, steps[0], steps[1..], b);
      WalkStaysIn(g, inside, steps[0], steps[1..], b);
    }
  }

  lemma ReachesStaysIn<T(!new)>(g: Graph<T>, inside: set<T>, a: T, b: T)
    requires forall n :: n in inside && n in g ==> g[n] * g.Keys <= inside
    requires a in inside && Reaches(g, a, b)
    ensures b in inside
  {
    var s :| Walk(g, a, s, b);
    WalkStaysIn(g, inside, a, s, b);
  }

  // ---------- adding a node nothing points at ----------

  lemma {:induction false} WalkInExtension<T(!new)>(g: Graph<T>, n: T, targets: set<T>, a: T, steps: seq<T>, b: T)
    requires Closed(g) && n !in g && a in g
    requires Walk(g[n := targets], a, steps, b) || Walk(g, a, steps, b)
    ensures Walk(g, a, steps, b) && Walk(g[n := targets], a, steps, b) && b in g
    decreases |steps|
  {
    if steps != [] {
      assert steps[0] in g[a];
      WalkInExtension(g, n, targets, steps[0], steps[1..], b);
    }
  }

  /** From an old node the new one is invisible. */
  lemma ReachesOldInExtension<T(!new)>(g: Graph<T>, n: T, targets: set<T>, a: T, b: T)
    requires Closed(g) && n !in g && a in g
    ensures Reaches(g[n := targets], a, b) <==> Reaches(g, a, b)
  {
    var g' := g[n := targets];
    if Reaches(g', a, b) {
      var s :| Walk(g', a, s, b);
      WalkInExtension(g, n, targets, a, s, b);
    }
    if Reaches(g, a, b) {
      var s :| Walk(g, a, s, b);
      WalkInExtension(g, n, targets, a, s, b);
    }
  }

  /** A fresh node whose edges all lead to existing nodes closes no cycle. */
  lemma ExtensionStaysAcyclic<T(!new)>(g: Graph<T>, n: T, targets: set<T>)
    requires Closed(g) && n !in g && targets <= g.Keys && !HasCycle(g)
    ensures Closed(g[n := targets]) && !HasCycle(g[n := targets])
  {
    var g' := g[n := targets];
    if HasCycle(g') {
      var a :| CycleAt(g', a);
      CycleHasEdge(g', a);
      var x :| x in g'[a] && Reaches(g', x, a);
      assert x in g;
      ReachesOldInExtension(g, n, targets, x, a);
      ReachesSplit(g, x, a);
      assert a in g;
      CycleFromEdge(g, a, x);
    }
  }

  /** A graph with fewer nodes and edges has no cycle the larger one lacks. */
  lemma {:induction false} WalkMono<T(!new)>(g: Graph<T>, h: Graph<T>, a: T, steps: seq<T>, b: T)
    requires forall n :: n in g ==> n in h && g[n] <= h[n]
    requires Walk(g, a, steps, b)
    ensures Walk(h, a, steps, b)
    decreases |steps|
  {
    if steps != [] {
      WalkMono(g, h, steps[0], steps[1..], b);
    }
  }

  lemma AcyclicMono<T(!new)>(g: Graph<T>, h: Graph<T>)
    requires forall n :: n in g ==> n in h && g[n] <= h[n]
    requires HasCycle(g)
    ensures HasCycle(h)
  {
    var a :| CycleAt(g, a);
    var s :| s != [] && Walk(g, a, s, a);
    WalkMono(g, h, a, s, a);
    assert CycleAt(h, a);
  }

  // ---------- the colouring depth-first search ----------

  /** `rank` certifies that everything reachable from `visited` is visited and acyclic. */
  ghost predicate Finished<T(!new)>(g: Graph<T>, visited: set<T>, rank: map<T, nat>) {
    && rank.Keys == visited <= g.Keys
    && (forall u :: u in visited ==> rank[u] < |visited|)
    && forall u, v :: u in visited && v in g[u] && v in g ==> v in visited && rank[v] < rank[u]
  }

  lemma {:induction false} FinishedDescends<T(!new)>(g: Graph<T>, visited: set<T>, rank: map<T, nat>, a: T,
      steps: seq<T>, b: T)
    requires Finished(g, visited, rank) && a in visited && Walk(g, a, steps, b)
    ensures b in visited && (steps != [] ==> rank[b] < rank[a])
    decreases |steps|
  {
    if steps != [] {
      assert steps[0] in g;
      FinishedDescends(g, visited, rank, steps[0], steps[1..], b);
    }
  }

  /** The stack of nodes under exploration: consecutive nodes are joined by edges. */
  ghost predicate IsStack<T(!new)>(g: Graph<T>, stack: seq<T>) {
    && (forall i :: 0 <= i < |stack| ==> stack[i] in g)
    && forall i, j :: 0 <= i && j == i + 1 && j < |stack| ==> stack[j] in g[stack[i]]
  }

  lemma {:induction false} StackIsWalk<T(!new)>(g: Graph<T>, stack: seq<T>, i: nat)
    requires IsStack(g, stack) && i < |stack|
    ensures Walk(g, stack[i], stack[i + 1..], stack[|stack| - 1])
    decreases |stack| - i
  {
    if i + 1 < |stack| {
      StackIsWalk(g, stack, i + 1);
      assert stack[i + 1..][0] == stack[i + 1];
      assert stack[i + 1..][1..] == stack[i + 2..];
    }
  }

  /** A node on the stack that the top of the stack points at closes a cycle. */
  lemma StackClosesCycle<T(!new)>(g: Graph<T>, stack: seq<T>, n: T)
    requires IsStack(g, stack) && stack != [] && n in stack && n in g[stack[|stack| - 1]]
    ensures HasCycle(g)
  {
    var i :| 0 <= i < |stack| && stack[i] == n;
    StackIsWalk(g, stack, i);
    assert Reaches(g, n, stack[|stack| - 1]);
    CycleFromEdge(g, stack[|stack| - 1], n);
  }

  lemma PushKeepsStack<T(!new)>(g: Graph<T>, stack: seq<T>, n: T)
    requires IsStack(g, stack) && n in g
    requires stack != [] ==> n in g[stack[|stack| - 1]]
    ensures IsStack(g, stack + [n])
  {
  }

  lemma FinishNode<T(!new)>(g: Graph<T>, visited: set<T>, rank: map<T, nat>, n: T)
    requires Finished(g, visited, rank) && n in g
    requires forall p :: p in g[n] && p in g ==> p in visited
    requires n !in visited
    ensures Finished(g, visited + {n}, rank[n := |visited|])
  {
    var rank' := rank[n := |visited|];
    forall u, v | u in visited + {n} && v in g[u] && v in g
      ensures v in visited + {n} && rank'[v] < rank'[u]
    {
      if u == n {
        assert v in visited;
      } else {
        assert v in visited && rank[v] < rank[u];
      }
    }
  }

  method Dfs<T(==,!new)>(g: Graph<T>, n: T, visiting: set<T>, visited: set<T>,
                         ghost stack: seq<T>, ghost rank: map<T, nat>)
      returns (cycle: bool, visited': set<T>, ghost rank': map<T, nat>)
    requires n in g && visiting <= g.Keys && IsStack(g, stack)
    requires forall x :: x in stack <==> x in visiting
    requires stack != [] ==> n in g[stack[|stack| - 1]]
    requires Finished(g, visited, rank)
    ensures cycle ==> HasCycle(g)
    ensures !cycle ==> visited <= visited' && n in visited' && Finished(g, visited', rank')
    decreases g.Keys - visiting
  {
    visited', rank' := visited, rank;
    if n in visiting {
      StackClosesCycle(g, stack, n);
      return true, visited', rank';
    }
    if n in visited {
      return false, visited', rank';
    }
    ghost var stack' := stack + [n];
    PushKeepsStack(g, stack, n);
    var todo := g[n];
    while todo != {}
      invariant todo <= g[n] && visited <= visited' && Finished(g, visited', rank')
      invariant forall p :: p in g[n] && p in g && p !in todo ==> p in visited'
      decreases todo
    {
      var p :| p in todo;
      todo := todo - {p};
      if p in g {
        cycle, visited', rank' := Dfs(g, p, visiting + {n}, visited', stack', rank');
        if cycle {
          return;
        }
      }
    }
    cycle := false;
    if n !in visited' {
      FinishNode(g, visited', rank', n);
      rank', visited' := rank'[n := |visited'|], visited' + {n};
    }
  }

  /** The cycle test, on any graph: edges that leave the graph are ignored. */
  method DetectCycle<T(==,!new)>(g: Graph<T>) returns (cycle: bool)
    ensures cycle <==> HasCycle(g)
  {
    var visited: set<T> := {};
    ghost var rank: map<T, nat> := map[];
    var todo := g.Keys;
    while todo != {}
      invariant todo <= g.Keys && Finished(g, visited, rank) && g.Keys - todo <= visited
      decreases todo
    {
      var n :| n in todo;
      todo := todo - {n};
      if n !in visited {
        cycle, visited, rank := Dfs(g, n, {}, visited, [], rank);
        if cycle {
          return;
        }
      }
    }
    if HasCycle(g) {
      ghost var a :| CycleAt(g, a);
      ghost var s :| s != [] && Walk(g, a, s, a);
      FinishedDescends(g, visited, rank, a, s, a);
    }
    cycle := false;
  }

  // ---------- the worklist search ----------

  lemma FirstReached<T(!new)>(g: Graph<T>, from: T)
    requires Closed(g) && from in g
    ensures forall x :: x in g[from] ==> Reaches(g, from, x)
  {
    forall x | x in g[from] ensures Reaches(g, from, x) {
      ReachesEdge(g, from, x);
    }
  }

  lemma SuccessorsReached<T(!new)>(g: Graph<T>, from: T, x: T)
    requires Closed(g) && x in g && Reaches(g, from, x)
    ensures forall y :: y in g[x] ==> y in g && Reaches(g, from, y)
  {
    FirstReached(g, x);
    hide Reaches;
    forall y | y in g[x] ensures Reaches(g, from, y) {
      ReachesTrans(g, from, x, y);
    }
  }

  /** What the search has seen and has still to look at is reached, and together closed under edges. */
  ghost predicate Explored<T(!new)>(g: Graph<T>, from: T, seen: set<T>, todo: seq<T>) {
    && seen <= g.Keys
    && (forall x :: x in todo ==> x in g && Reaches(g, from, x))
    && (forall n, x :: (n == from || n in seen) && n in g && x in g[n] ==> x in seen || x in todo)
  }

  lemma ExploreFirst<T(!new)>(g: Graph<T>, from: T, todo: seq<T>)
    requires Closed(g) && from in g && forall x :: x in todo <==> x in g[from]
    ensures Explored(g, from, {}, todo)
  {
    FirstReached(g, from);
    hide Reaches;
  }

  lemma ExploreNext<T(!new)>(g: Graph<T>, from: T, seen: set<T>, todo: seq<T>, x: T, more: seq<T>)
    requires Closed(g) && Explored(g, from, seen, todo + [x])
    requires x in g && forall y :: y in more <==> y in g[x]
    ensures Explored(g, from, seen + {x}, todo + more)
  {
    assert x in todo + [x];
    SuccessorsReached(g, from, x);
    hide Reaches;
    assert forall y :: y in todo ==> y in todo + [x];
    assert forall y :: y in todo + [x] <==> y in todo || y == x;
    assert forall y :: y in todo + more <==> y in todo || y in more;
  }

  lemma ExploreTop<T(!new)>(g: Graph<T>, from: T, seen: set<T>, todo: seq<T>)
    requires Explored(g, from, seen, todo) && todo != []
    ensures var n := |todo| - 1;
            todo[n] in g && Reaches(g, from, todo[n]) && (todo[n] in seen ==> Explored(g, from, seen, todo[..n]))
  {
    hide Reaches;
    var n := |todo| - 1;
    assert todo == todo[..n] + [todo[n]];
  }

  lemma ExploredAll<T(!new)>(g: Graph<T>, from: T, target: T, seen: set<T>)
    requires Closed(g) && Explored(g, from, seen, []) && target != from && target !in seen
    ensures !Reaches(g, from, target)
  {
    if Reaches(g, from, target) {
      ReachesStaysIn(g, seen + {from}, from, target);
    }
  }

  /** Whether `target` is `from` or is reached from it, by a stack of nodes still to look at. */
  method WorklistReaches<T(==,!new)>(g: Graph<T>, from: T, target: T) returns (found: bool)
    requires Closed(g) && (from in g || from == target)
    ensures found <==> from == target || Reaches(g, from, target)
  {
    if from == target {
      return true;
    }
    var todo := SetToSeq(g[from]);
    var seen: set<T> := {};
    ExploreFirst(g, from, todo);
    hide Explored, Reaches;
    while todo != []
      invariant seen <= g.Keys && target !in seen && Explored(g, from, seen, todo)
      decreases g.Keys - seen, |todo|
    {
      ExploreTop(g, from, seen, todo);
      var x := todo[|todo| - 1];
      ghost var before := todo;
      todo := todo[..|todo| - 1];
      if x == target {
        return true;
      }
      if x !in seen {
        var more := SetToSeq(g[x]);
        assert before == todo + [x];
        ExploreNext(g, from, seen, todo, x, more);
        seen := seen + {x};
        todo := todo + more;
      }
    }
    ExploredAll(g, from, target, seen);
    found := false;
  }

  method SetToSeq<T(==)>(s: set<T>) returns (q: seq<T>)
    ensures forall x :: x in q <==> x in s
    ensures |q| == |s|
  {
    q := [];
    var todo := s;
    while todo != {}
      invariant todo <= s && |q| + |todo| == |s|
      invariant forall x :: x in q <==> x in s && x !in todo
      decreases todo
    {
      var x :| x in todo;
      q := q + [x];
      todo := todo - {x};
    }
  }
}
