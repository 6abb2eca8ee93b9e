/**
  The dependency check of the audit registry (tools/audit_tracker.py): a recursive
  depth-first search over a graph of names, with a set of active and a set of
  complete nodes.
*/
module AuditGraph {
  import opened Common

  type Graph = map<string, seq<string>>

  /** Each name on the path depends on the next. */
  ghost predicate IsPath(g: Graph, p: seq<string>) {
    forall i :: 0 <= i < |p| - 1 ==> p[i] in g && p[i + 1] in g[p[i]]
  }

  ghost predicate IsCycle(g: Graph, p: seq<string>) {
    |p| >= 2 && p[0] == p[|p| - 1] && IsPath(g, p)
  }

  ghost predicate Acyclic(g: Graph) { forall p :: !IsCycle(g, p) }

  ghost predicate Closed(g: Graph) {
    forall n, d :: n in g && d in g[n] ==> d in g
  }

  datatype Verdict = Fine | CycleAt(node: string) | Unknown(node: string)

  /** The witnesses of the two errors: a cycle through the node, or a dependency that is no node. */
  ghost predicate Justified(g: Graph, v: Verdict) {
    match v
    case Fine => true
    case CycleAt(n) => exists p :: IsCycle(g, p) && p[0] == n
    case Unknown(n) => n !in g && exists m :: m in g && n in g[m]
  }

  // ---------- Finished nodes in dependency order ----------

  /** Each finished node's dependencies were finished before it. */
  ghost predicate Postorder(g: Graph, order: seq<string>) {
    forall i :: 0 <= i < |order| ==>
      order[i] in g && forall d :: d in g[order[i]] ==> d in order[..i]
  }

  ghost predicate Once(order: seq<string>) {
    forall i, j :: 0 <= i < j < |order| ==> order[i] != order[j]
  }

  ghost predicate At(order: seq<string>, i: int, n: string) { 0 <= i < |order| && order[i] == n }

  /** Along a path, positions in the order go strictly down. */
  lemma {:induction false} PathDescends(g: Graph, order: seq<string>, p: seq<string>, i: nat) returns (j: int)
    requires Postorder(g, order) && Once(order) && |p| >= 1 && IsPath(g, p) && At(order, i, p[0])
    ensures At(order, j, p[|p| - 1]) && j <= i && (|p| >= 2 ==> j < i)
    decreases |p|
  {
    j := i;
    if |p| >= 2 {
      assert p[1] in order[..i];
      var k :| 0 <= k < i && order[..i][k] == p[1];
      j := PathDescends(g, order, p[1..], k);
    }
  }

  lemma NoReturn(g: Graph, order: seq<string>, p: seq<string>)
    requires Postorder(g, order) && Once(order) && |p| >= 2 && IsPath(g, p) && p[0] in order
    ensures p[|p| - 1] != p[0]
  {
    var i :| 0 <= i < |order| && order[i] == p[0];
    var j := PathDescends(g, order, p, i);
  }

  lemma OrderedIsAcyclic(g: Graph, order: seq<string>)
    requires Postorder(g, order) && Once(order) && forall n :: n in g ==> n in order
    ensures Acyclic(g) && Closed(g)
  {
    forall p ensures !IsCycle(g, p) {
      if |p| >= 2 && IsPath(g, p) { NoReturn(g, order, p); }
    }
    forall n, d | n in g && d in g[n] ensures d in g {
      var i :| 0 <= i < |order| && order[i] == n;
      assert d in order[..i];
      var k :| 0 <= k < i && order[k] == d;
    }
  }

  // ---------- The search ----------

  class Search {
    const graph: Graph
    var active: set<string>
    var complete: set<string>
    ghost var order: seq<string>

    constructor (g: Graph)
      ensures graph == g && active == {} && complete == {} && order == []
    {
      graph := g;
      active, complete := {}, {};
      order := [];
    }

    /** The complete nodes, in the order they finished; no active node is complete. */
    ghost predicate Valid()
      reads this
    {
      && Postorder(graph, order) && Once(order)
      && (forall n :: n in complete <==> n in order)
      && active !! complete && active <= graph.Keys
    }

    /**
      Visits a node whose chain of active ancestors is the path.  A fine visit completes
      the node, keeps what was complete and leaves the active set as it was.
    */
    method Visit(node: string, ghost path: seq<string>) returns (v: Verdict)
      requires Valid() && IsPath(graph, path + [node]) && forall n :: n in active <==> n in path
      requires path == [] ==> node in graph
      modifies this
      ensures v.Fine? ==> Valid() && active == old(active) && node in complete && old(complete) <= complete
      ensures Justified(graph, v)
      decreases graph.Keys - active
    {
      if node in active {
        ghost var i :| 0 <= i < |path| && path[i] == node;
        ghost var cycle := path[i..] + [node];
        assert forall k :: 0 <= k < |cycle| ==> cycle[k] == (path + [node])[i + k];
        assert IsCycle(graph, cycle) && cycle[0] == node;
        return CycleAt(node);
      }
      if node in complete { return Fine; }
      if node !in graph {
        assert (path + [node])[|path| - 1] == path[|path| - 1] && (path + [node])[|path|] == node;
        return Unknown(node);
      }
      active := active + {node};
      ghost var deeper := path + [node];
      var deps := graph[node];
      for i := 0 to |deps|
        invariant Valid() && active == old(active) + {node} && old(complete) <= complete && node !in complete
        invariant forall k :: 0 <= k < i ==> deps[k] in complete
      {
        assert deeper[|path|] == node && deps[i] in graph[node];
        assert forall k :: 0 <= k < |deeper| ==> (deeper + [deps[i]])[k] == (path + [node])[k];
        assert IsPath(graph, deeper + [deps[i]]);
        v := Visit(deps[i], deeper);
        if !v.Fine? { return v; }
      }
      active := active - {node};
      complete := complete + {node};
      ghost var before := order;
      order := order + [node];
      assert forall d :: d in deps ==> d in before;
      assert forall k :: 0 <= k < |before| ==> order[..k] == before[..k];
      assert order[..|before|] == before;
      return Fine;
    }
  }

  /** The check: it returns normally exactly when every dependency is a node and no node reaches itself. */
  method AssertGraphAcyclic(graph: Graph) returns (v: Verdict)
    ensures v.Fine? <==> Acyclic(graph) && Closed(graph)
    ensures Justified(graph, v)
  {
    var search := new Search(graph);
    var nodes := graph.Keys;
    while nodes != {}
      invariant search.graph == graph && search.Valid() && search.active == {}
      invariant nodes <= graph.Keys && forall n :: n in graph && n !in nodes ==> n in search.complete
      decreases nodes
    {
      var node :| node in nodes;
      v := search.Visit(node, []);
      if !v.Fine? {
        return;
      }
      nodes := nodes - {node};
    }
    OrderedIsAcyclic(graph, search.order);
    return Fine;
  }
}
