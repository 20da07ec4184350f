/** Directed edge lists, walks over them, and the two searches the call graph relies on:
    the store's depth-first cycle test and the adjacency map both searches are built from. */
module Digraph {

  type Node = string

  datatype Edge = Edge(id: string, source: Node, target: Node)

  /** Some edge of the list runs from `a` to `b`. */
  predicate HasEdge(edges: seq<Edge>, a: Node, b: Node) {
    exists i :: 0 <= i < |edges| && edges[i].source == a && edges[i].target == b
  }

  /** `p` follows edges of the list from its first node to its last. A single node is a walk. */
  ghost predicate IsWalk(edges: seq<Edge>, p: seq<Node>) {
    |p| >= 1 && forall i :: 0 <= i < |p| - 1 ==> HasEdge(edges, p[i], p[i + 1])
  }

  ghost predicate IsWalkFromTo(edges: seq<Edge>, p: seq<Node>, a: Node, b: Node) {
    IsWalk(edges, p) && p[0] == a && p[|p| - 1] == b
  }

  /** `b` can be reached from `a` in zero or more steps. */
  ghost predicate Reaches(edges: seq<Edge>, a: Node, b: Node) {
    exists p :: IsWalkFromTo(edges, p, a, b)
  }

  ghost predicate IsCycle(edges: seq<Edge>, p: seq<Node>) {
    IsWalk(edges, p) && |p| >= 2 && p[0] == p[|p| - 1]
  }

  /** The list contains a directed cycle; a self-loop is one of length one. */
  ghost predicate Cyclic(edges: seq<Edge>) {
    exists p :: IsCycle(edges, p)
  }

  function Nodes(edges: seq<Edge>): set<Node> {
    (set e <- edges :: e.source) + (set e <- edges :: e.target)
  }

  type Adjacency = map<Node, seq<Node>>

  ghost predicate Represents(adjacency: Adjacency, edges: seq<Edge>) {
    && (forall a, b :: a in adjacency && b in adjacency[a] ==> HasEdge(edges, a, b))
    && (forall i :: 0 <= i < |edges| ==>
          edges[i].source in adjacency && edges[i].target in adjacency[edges[i].source])
  }

  lemma RepresentsOneMore(adjacency: Adjacency, edges: seq<Edge>, e: Edge)
    requires Represents(adjacency, edges)
    ensures var soFar := if e.source in adjacency then adjacency[e.source] else [];
            Represents(adjacency[e.source := soFar + [e.target]], edges + [e])
  {
    var more := edges + [e];
    forall a, b | HasEdge(edges, a, b)
      ensures HasEdge(more, a, b)
    {
      var k :| 0 <= k < |edges| && edges[k].source == a && edges[k].target == b;
      assert more[k] == edges[k];
    }
    assert more[|edges|] == e;
    assert HasEdge(more, e.source, e.target);
  }

  /** Successors of every source, in edge order. */
  method BuildAdjacency(edges: seq<Edge>) returns (adjacency: Adjacency)
    ensures Represents(adjacency, edges)
    ensures adjacency.Keys == set e <- edges :: e.source
  {
    adjacency := map[];
    for i := 0 to |edges|
      invariant Represents(adjacency, edges[..i])
      invariant adjacency.Keys == set e <- edges[..i] :: e.source
    {
      var e := edges[i];
      var soFar := if e.source in adjacency then adjacency[e.source] else [];
      assert edges[..i + 1] == edges[..i] + [e];
      RepresentsOneMore(adjacency, edges[..i], e);
      adjacency := adjacency[e.source := soFar + [e.target]];
    }
    assert edges[..|edges|] == edges;
  }

  /** Each node of `order` has all its successors earlier in `order`: the rank that rules cycles out. */
  ghost predicate FinishOrder(edges: seq<Edge>, order: seq<Node>) {
    forall i, m :: 0 <= i < |order| && HasEdge(edges, order[i], m) ==> m in order[..i]
  }

  /** From a ranked node a walk only ever reaches nodes of smaller rank. */
  lemma {:induction false} WalkDescends(edges: seq<Edge>, order: seq<Node>, p: seq<Node>, i: nat)
    requires FinishOrder(edges, order) && IsWalk(edges, p)
    requires i < |order| && order[i] == p[0] && |p| >= 2
    ensures p[|p| - 1] in order[..i]
    decreases |p|
  {
    assert HasEdge(edges, p[0], p[1]);
    if |p| > 2 {
      var j :| 0 <= j < i && order[j] == p[1];
      var rest := p[1..];
      forall k | 0 <= k < |rest| - 1
        ensures HasEdge(edges, rest[k], rest[k + 1])
      {
        assert HasEdge(edges, p[k + 1], p[k + 1 + 1]);
      }
      WalkDescends(edges, order, rest, j);
      assert order[..j] <= order[..i];
    }
  }

  lemma FirstOccurrence(order: seq<Node>, n: Node) returns (i: nat)
    requires n in order
    ensures i < |order| && order[i] == n && n !in order[..i]
  {
    i := 0;
    while order[i] != n
      invariant i < |order| && n !in order[..i]
      invariant n in order[i..]
      decreases |order| - i
    {
      i := i + 1;
    }
  }

  /** A list whose every source is ranked has no cycle. */
  lemma FinishOrderIsAcyclic(edges: seq<Edge>, order: seq<Node>)
    requires FinishOrder(edges, order)
    requires forall i :: 0 <= i < |edges| ==> edges[i].source in order
    ensures !Cyclic(edges)
  {
    if Cyclic(edges) {
      var p :| IsCycle(edges, p);
      assert HasEdge(edges, p[0], p[1]);
      var i := FirstOccurrence(order, p[0]);
      WalkDescends(edges, order, p, i);
      assert false;
    }
  }

  /** The depth-first search of the store, with the two sets its recursion shares. The ghost
      sequences order what the sets forget: `path` is the recursion stack, `finished` the order in
      which nodes left it. */
  class CycleSearch {
    const adjacency: Adjacency
    var visited: set<Node>
    var stack: set<Node>
    ghost const edges: seq<Edge>
    ghost var path: seq<Node>
    ghost var finished: seq<Node>

    constructor (adjacency: Adjacency, ghost edges: seq<Edge>)
      requires Represents(adjacency, edges)
      ensures Valid() && path == [] && visited == {}
      ensures this.adjacency == adjacency && this.edges == edges
    {
      this.adjacency, this.edges := adjacency, edges;
      visited, stack, path, finished := {}, {}, [], [];
    }

    ghost predicate Valid()
      reads this
    {
      && Represents(adjacency, edges)
      && visited <= Nodes(edges)
      && (forall n :: n in stack <==> n in path)
      && (forall n :: n in visited <==> n in path || n in finished)
      && (forall n :: n in path ==> n !in finished)
      && (forall i, j :: 0 <= i < j < |path| ==> path[i] != path[j])
      && (path != [] ==> IsWalk(edges, path))
      && FinishOrder(edges, finished)
    }

    lemma ClosingEdgeIsCycle(m: Node)
      requires Valid() && path != [] && m in path && HasEdge(edges, path[|path| - 1], m)
      ensures Cyclic(edges)
    {
      var k :| 0 <= k < |path| && path[k] == m;
      var cycle := path[k..] + [m];
      forall i | 0 <= i < |cycle| - 1
        ensures HasEdge(edges, cycle[i], cycle[i + 1])
      {
        if i < |cycle| - 2 {
          assert HasEdge(edges, path[k + i], path[k + i + 1]);
        }
      }
      assert cycle[0] == path[k] == m == cycle[|cycle| - 1];
      assert IsCycle(edges, cycle);
    }

    /** `visited.add(n); stack.add(n)`. */
    method Enter(n: Node)
      requires Valid() && n in Nodes(edges) && n !in visited
      requires path != [] ==> HasEdge(edges, path[|path| - 1], n)
      modifies this
      ensures Valid() && path == old(path) + [n]
      ensures visited == old(visited) + {n} && finished == old(finished)
    {
      visited := visited + {n};
      stack := stack + {n};
      path := path + [n];
    }

    /** `stack.delete(n)`, once every successor of `n` has been left. */
    method Leave(n: Node)
      requires Valid() && path != [] && path[|path| - 1] == n
      requires forall m :: HasEdge(edges, n, m) ==> m in finished
      modifies this
      ensures Valid() && path == old(path[..|path| - 1])
      ensures visited == old(visited)
    {
      forall i, m | 0 <= i <= |finished| && HasEdge(edges, (finished + [n])[i], m)
        ensures m in (finished + [n])[..i]
      {
        assert (finished + [n])[..i] == finished[..i];
      }
      stack := stack - {n};
      path := path[..|path| - 1];
      finished := finished + [n];
      assert FinishOrder(edges, finished);
      assert old(path) == path + [n];
    }

    method Dfs(n: Node) returns (found: bool)
      requires Valid() && n in Nodes(edges) && n !in visited
      requires path != [] ==> HasEdge(edges, path[|path| - 1], n)
      modifies this
      ensures found ==> Cyclic(edges)
      ensures !found ==> Valid() && path == old(path) && n in visited && old(visited) <= visited
      decreases Nodes(edges) - visited
    {
      Enter(n);
      var successors := if n in adjacency then adjacency[n] else [];
      for i := 0 to |successors|
        invariant Valid() && path == old(path) + [n]
        invariant n in visited && old(visited) <= visited
        invariant forall j :: 0 <= j < i ==> successors[j] in visited && successors[j] !in path
      {
        var m := successors[i];
        assert HasEdge(edges, path[|path| - 1], m);
        if m in stack {
          ClosingEdgeIsCycle(m);
          return true;
        }
        if m !in visited {
          var below := Dfs(m);
          if below {
            return true;
          }
        }
      }
      Leave(n);
      return false;
    }
  }

  /** The store's cycle test answers exactly whether the list has a directed cycle. */
  method HasCycle(edges: seq<Edge>) returns (found: bool)
    ensures found <==> Cyclic(edges)
  {
    var adjacency := BuildAdjacency(edges);
    var search := new CycleSearch(adjacency, edges);
    var todo := adjacency.Keys;
    while todo != {}
      invariant search.Valid() && search.edges == edges && search.path == []
      invariant fresh(search)
      invariant todo <= adjacency.Keys && adjacency.Keys - todo <= search.visited
      decreases todo
    {
      var n :| n in todo;
      todo := todo - {n};
      if n !in search.visited {
        var below := search.Dfs(n);
        if below {
          return true;
        }
      }
    }
    FinishOrderIsAcyclic(edges, search.finished);
    return false;
  }
}
