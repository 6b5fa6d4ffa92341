/** Trace chains: nodes, edges and what can be reached from a node. */
module Trace {
  import opened Common

  datatype Node = Node(id: string, tenant: string, lotId: string, kind: string)
  datatype Edge = Edge(id: string, from: string, to: string)

  /** Some node carries the id. */
  predicate HasNode(nodes: seq<Node>, id: string) { exists i | 0 <= i < |nodes| :: nodes[i].id == id }

  predicate Linked(edges: seq<Edge>, a: string, b: string) {
    exists i | 0 <= i < |edges| :: edges[i].from == a && edges[i].to == b
  }

  /** A chain of edges from start to end. */
  ghost predicate IsPath(edges: seq<Edge>, path: seq<string>, start: string, end: string) {
    && path != [] && path[0] == start && path[|path| - 1] == end
    && forall i | 0 <= i < |path| - 1 :: Linked(edges, path[i], path[i + 1])
  }

  ghost predicate Reaches(edges: seq<Edge>, start: string, end: string) {
    exists path :: IsPath(edges, path, start, end)
  }

  /** Nothing outside the set is one edge away from it. */
  predicate Closed(edges: seq<Edge>, s: set<string>) {
    forall i | 0 <= i < |edges| :: edges[i].from in s ==> edges[i].to in s
  }

  function Ends(edges: seq<Edge>): set<string> { set i | 0 <= i < |edges| :: edges[i].to }

  class Chain {
    var nodes: seq<Node>
    var edges: seq<Edge>

    /** Node ids are distinct; edges join two different nodes of the chain. */
    ghost predicate Valid()
      reads this
    {
      && (forall i, j | 0 <= i < j < |nodes| :: nodes[i].id != nodes[j].id)
      && (forall i | 0 <= i < |edges| ::
            edges[i].from != edges[i].to && HasNode(nodes, edges[i].from) && HasNode(nodes, edges[i].to))
    }

    constructor ()
      ensures Valid() && nodes == [] && edges == []
    {
      nodes, edges := [], [];
    }

    method AddNode(n: Node) returns (ok: bool)
      requires Valid()
      modifies this`nodes
      ensures Valid() && (ok <==> forall i | 0 <= i < |old(nodes)| :: old(nodes)[i].id != n.id)
      ensures nodes == if ok then old(nodes) + [n] else old(nodes)
    {
      for i := 0 to |nodes|
        invariant forall j | 0 <= j < i :: nodes[j].id != n.id
      {
        if nodes[i].id == n.id {
          return false;
        }
      }
      nodes := nodes + [n];
      forall id | HasNode(old(nodes), id) ensures HasNode(nodes, id) {
        var i :| 0 <= i < |old(nodes)| && old(nodes)[i].id == id;
        assert nodes[i].id == id;
      }
      ok := true;
    }

    method AddEdge(e: Edge) returns (ok: bool)
      requires Valid()
      modifies this`edges
      ensures Valid() && (ok <==> e.from != e.to
                                  && (exists i | 0 <= i < |nodes| :: nodes[i].id == e.from)
                                  && (exists i | 0 <= i < |nodes| :: nodes[i].id == e.to))
      ensures edges == if ok then old(edges) + [e] else old(edges)
    {
      if e.from == e.to {
        return false;
      }
      var hasFrom, hasTo := false, false;
      for i := 0 to |nodes|
        invariant hasFrom == HasNode(nodes[..i], e.from) && hasTo == HasNode(nodes[..i], e.to)
      {
        assert nodes[..i + 1] == nodes[..i] + [nodes[i]];
        hasFrom := hasFrom || nodes[i].id == e.from;
        hasTo := hasTo || nodes[i].id == e.to;
      }
      assert nodes[..|nodes|] == nodes;
      if !hasFrom || !hasTo {
        return false;
      }
      edges := edges + [e];
      ok := true;
    }

    /** Sweeps the edges until a sweep adds nothing; every other sweep adds an edge's end. */
    method Reachable(start: string) returns (out: set<string>)
      ensures forall id :: id in out <==> Reaches(edges, start, id)
      ensures start in out && forall i | 0 <= i < |edges| :: edges[i].from in out ==> edges[i].to in out
    {
      out := {start};
      assert IsPath(edges, [start], start, start);
      var changed := true;
      while changed
        invariant start in out && out <= {start} + Ends(edges)
        invariant forall id | id in out :: Reaches(edges, start, id)
        invariant !changed ==> Closed(edges, out)
        decreases |{start} + Ends(edges) - out|, changed
      {
        changed := false;
        ghost var before := out;
        for i := 0 to |edges|
          invariant before <= out <= {start} + Ends(edges)
          invariant forall id | id in out :: Reaches(edges, start, id)
          invariant if changed then before < out else out == before
          invariant !changed ==> forall j | 0 <= j < i :: edges[j].from in out ==> edges[j].to in out
        {
          if edges[i].from in out && edges[i].to !in out {
            PathExtend(edges, start, edges[i].from, edges[i].to);
            out := out + {edges[i].to};
            changed := true;
          }
        }
        if changed {
          SmallerRest({start} + Ends(edges), before, out);
        }
      }
      forall id | Reaches(edges, start, id) ensures id in out {
        var path :| IsPath(edges, path, start, id);
        ClosedHoldsPaths(edges, out, path, start, id);
      }
    }

    /** On a chain built by AddNode and AddEdge, a walk from a node stays on nodes. */
    lemma ReachStaysOnNodes(start: string, id: string)
      requires Valid() && HasNode(nodes, start) && Reaches(edges, start, id)
      ensures HasNode(nodes, id)
    {
      var path :| IsPath(edges, path, start, id);
      if |path| > 1 {
        assert Linked(edges, path[|path| - 2], path[|path| - 1]);
      }
    }
  }

  lemma SmallerRest(all: set<string>, a: set<string>, b: set<string>)
    requires a < b <= all
    ensures |all - b| < |all - a|
  {
    var x :| x in b && x !in a;
    assert x in all - a && all - b <= all - a - {x};
    SubsetSize(all - b, all - a - {x});
  }

  lemma {:induction false} SubsetSize(a: set<string>, b: set<string>)
    requires a <= b
    ensures |a| <= |b|
  {
    if a != {} {
      var x :| x in a;
      SubsetSize(a - {x}, b - {x});
    }
  }

  lemma PathExtend(edges: seq<Edge>, start: string, mid: string, end: string)
    requires Reaches(edges, start, mid) && Linked(edges, mid, end)
    ensures Reaches(edges, start, end)
  {
    var path :| IsPath(edges, path, start, mid);
    assert IsPath(edges, path + [end], start, end);
  }

  /** A path that starts in a closed set ends in it. */
  lemma {:induction false} ClosedHoldsPaths(edges: seq<Edge>, s: set<string>, path: seq<string>, start: string, end: string)
    requires Closed(edges, s) && start in s && IsPath(edges, path, start, end)
    ensures end in s
  {
    if |path| > 1 {
      var n := |path| - 1;
      assert IsPath(edges, path[..n], start, path[n - 1]);
      ClosedHoldsPaths(edges, s, path[..n], start, path[n - 1]);
      assert Linked(edges, path[n - 1], path[n]);
    }
  }

  /** The reachable ids are the least closed set with the start in it. */
  lemma ReachableIsLeast(edges: seq<Edge>, start: string, out: set<string>, s: set<string>)
    requires forall id :: id in out <==> Reaches(edges, start, id)
    requires start in s && forall i | 0 <= i < |edges| :: edges[i].from in s ==> edges[i].to in s
    ensures start in out && (forall i | 0 <= i < |edges| :: edges[i].from in out ==> edges[i].to in out) && out <= s
  {
    assert IsPath(edges, [start], start, start);
    forall i | 0 <= i < |edges| && edges[i].from in out ensures edges[i].to in out {
      PathExtend(edges, start, edges[i].from, edges[i].to);
    }
    forall id | id in out ensures id in s {
      var path :| IsPath(edges, path, start, id);
      ClosedHoldsPaths(edges, s, path, start, id);
    }
  }
}
