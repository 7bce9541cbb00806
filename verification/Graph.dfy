/** Prerequisite graphs: an edge (n, p) says that n waits for its parent p. */
module Graph {
  import opened Wrappers

  type Node = Id

  type Edges = set<(Node, Node)>

  ghost predicate IsPath(edges: Edges, path: seq<Node>) {
    |path| >= 2 && forall i | 0 <= i < |path| - 1 :: (path[i], path[i + 1]) in edges
  }

  ghost predicate PathFromTo(edges: Edges, path: seq<Node>, a: Node, b: Node) {
    IsPath(edges, path) && path[0] == a && path[|path| - 1] == b
  }

  /** A walk of at least one edge leads from a to b. */
  ghost predicate Reaches(edges: Edges, a: Node, b: Node) {
    exists path :: PathFromTo(edges, path, a, b)
  }

  ghost predicate Acyclic(edges: Edges) {
    forall n :: !Reaches(edges, n, n)
  }

  lemma NoEdgesNoPath(path: seq<Node>)
    ensures !IsPath({}, path)
  {
    var edges: Edges := {};
    if |path| >= 2 {
      var i := 0;
      assert 0 <= i < |path| - 1 && (path[i], path[i + 1]) !in edges;
    }
  }

  lemma NoEdgesAcyclic()
    ensures Acyclic({})
  {
    forall n, path ensures !PathFromTo({}, path, n, n) {
      NoEdgesNoPath(path);
    }
  }

  lemma EdgeReaches(edges: Edges, a: Node, b: Node)
    requires (a, b) in edges
    ensures Reaches(edges, a, b)
  {
    assert PathFromTo(edges, [a, b], a, b);
  }

  lemma ReachesTransitive(edges: Edges, a: Node, b: Node, c: Node)
    requires Reaches(edges, a, b) && Reaches(edges, b, c)
    ensures Reaches(edges, a, c)
  {
    var p :| PathFromTo(edges, p, a, b);
    var q :| PathFromTo(edges, q, b, c);
    assert PathFromTo(edges, p + q[1..], a, c);
  }

  /** A set closed under the edges that holds every parent of `from` holds all that `from` reaches. */
  lemma {:induction false} ClosedHoldsReach(edges: Edges, closed: set<Node>, path: seq<Node>)
    requires IsPath(edges, path)
    requires path[1] in closed
    requires forall e | e in edges && e.0 in closed :: e.1 in closed
    ensures path[|path| - 1] in closed
  {
    if |path| > 2 {
      assert (path[1], path[2]) in edges;
      ClosedHoldsReach(edges, closed, path[1..]);
    }
  }

  /** The recursive query `reach`: the set of all nodes reachable from `from`, grown from a working
      table of the newest rows until no new row appears. It terminates on cyclic edges too. */
  method ReachQuery(edges: Edges, from: Node) returns (reach: set<Node>)
    ensures forall n :: n in reach <==> Reaches(edges, from, n)
  {
    ghost var parents := set e | e in edges :: e.1;
    var work := set e | e in edges && e.0 == from :: e.1;
    reach := work;
    forall n | n in reach ensures Reaches(edges, from, n) {
      EdgeReaches(edges, from, n);
    }
    while work != {}
      invariant work <= reach <= parents
      invariant forall e | e in edges && e.0 == from :: e.1 in reach
      invariant forall e | e in edges && e.0 in reach - work :: e.1 in reach
      invariant forall n | n in reach :: Reaches(edges, from, n)
      decreases parents - reach, work
    {
      var next := set e | e in edges && e.0 in work :: e.1;
      forall n | n in next ensures Reaches(edges, from, n) {
        var e :| e in edges && e.0 in work && e.1 == n;
        EdgeReaches(edges, e.0, n);
        ReachesTransitive(edges, from, e.0, n);
      }
      forall e | e in edges && e.0 in reach ensures e.1 in reach + next {
      }
      work := next - reach;
      reach := reach + work;
    }
    forall n | Reaches(edges, from, n) ensures n in reach {
      var path :| PathFromTo(edges, path, from, n);
      assert (path[0], path[1]) in edges;
      ClosedHoldsReach(edges, reach, path);
    }
  }

  /** A walk in the graph with one more edge either avoids the edge or splits around it. */
  lemma {:induction false} SplitAtNewEdge(edges: Edges, a: Node, b: Node, path: seq<Node>)
    requires IsPath(edges + {(a, b)}, path)
    ensures var x, y := path[0], path[|path| - 1];
      || Reaches(edges, x, y)
      || ((x == a || Reaches(edges, x, a)) && (y == b || Reaches(edges, b, y)))
  {
    var x, y := path[0], path[|path| - 1];
    assert (path[0], path[1]) in edges + {(a, b)};
    if (path[0], path[1]) in edges {
      EdgeReaches(edges, x, path[1]);
    }
    if |path| > 2 {
      var z := path[1];
      SplitAtNewEdge(edges, a, b, path[1..]);
      if (x, z) in edges {
        if Reaches(edges, z, y) {
          ReachesTransitive(edges, x, z, y);
        } else if z != a {
          ReachesTransitive(edges, x, z, a);
        }
      }
    }
  }

  /** The guard of AddDependency is exactly what keeps the graph acyclic: a new edge closes a loop if
      and only if it is a self edge or the parent already reaches the node. */
  lemma AcyclicAfterEdgeIff(edges: Edges, node: Node, parent: Node)
    requires Acyclic(edges)
    ensures Acyclic(edges + {(node, parent)}) <==> node != parent && !Reaches(edges, parent, node)
  {
    var more := edges + {(node, parent)};
    EdgeReaches(more, node, parent);
    if node != parent && Reaches(edges, parent, node) {
      var path :| PathFromTo(edges, path, parent, node);
      assert PathFromTo(more, path, parent, node);
      ReachesTransitive(more, node, parent, node);
    }
    if node != parent && !Reaches(edges, parent, node) {
      forall n ensures !Reaches(more, n, n) {
        if Reaches(more, n, n) {
          var path :| PathFromTo(more, path, n, n);
          SplitAtNewEdge(edges, node, parent, path);
          assert n == node || Reaches(edges, n, node);
          assert n == parent || Reaches(edges, parent, n);
          if n != node && n != parent {
            ReachesTransitive(edges, parent, n, node);
          }
        }
      }
    }
  }

  ghost function Below(edges: Edges, open: set<Node>, n: Node): set<Node> {
    set m | m in open && Reaches(edges, n, m)
  }

  /** In an acyclic graph every non-empty set of nodes has one with no parent in the set. */
  lemma {:induction false} SomeNodeUnblocked(edges: Edges, open: set<Node>, n: Node) returns (free: Node)
    requires Acyclic(edges) && n in open
    ensures free in open && forall e | e in edges && e.0 == free :: e.1 !in open
    decreases Below(edges, open, n)
  {
    if e :| e in edges && e.0 == n && e.1 in open {
      var p := e.1;
      EdgeReaches(edges, n, p);
      assert p in Below(edges, open, n) && p !in Below(edges, open, p);
      forall m | m in Below(edges, open, p) ensures m in Below(edges, open, n) {
        ReachesTransitive(edges, n, p, m);
      }
      free := SomeNodeUnblocked(edges, open, p);
    } else {
      free := n;
    }
  }
}
