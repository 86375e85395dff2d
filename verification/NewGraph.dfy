/** Validation of a DAG specification, and end-to-end facts about specifications. */
module NewGraph {
  import opened Types
  import opened Ordering
  import opened DagGraph
  import Kahn = TopologicalSort

  // ---------------------------------------------------------------- what is wrong with a specification

  ghost predicate Declares(nodes: seq<NodeSpec>, id: NodeId) {
    exists i :: 0 <= i < |nodes| && nodes[i].id == id
  }

  /** The first fault among the first `k` nodes: a repeated id, or a node without a task. */
  ghost function NodeFault(nodes: seq<NodeSpec>, k: nat): Option<GraphError>
    requires k <= |nodes|
  {
    if k == 0 then None
    else if NodeFault(nodes, k - 1).Some? then NodeFault(nodes, k - 1)
    else if Declares(nodes[..k - 1], nodes[k - 1].id) then Some(DuplicateNode(nodes[k - 1].id))
    else if nodes[k - 1].task.None? then Some(MissingTaskSpec(nodes[k - 1].id))
    else None
  }

  /** The first undeclared entry among the first `j` dependencies of `n`. */
  ghost function EntryFault(nodes: seq<NodeSpec>, n: NodeSpec, j: nat): Option<GraphError>
    requires j <= |n.dependsOn|
  {
    if j == 0 then None
    else if EntryFault(nodes, n, j - 1).Some? then EntryFault(nodes, n, j - 1)
    else if !Declares(nodes, n.dependsOn[j - 1]) then Some(NodeNotFound(n.dependsOn[j - 1], n.id))
    else None
  }

  /** The first undeclared dependency of the first `k` nodes. */
  ghost function DepFault(nodes: seq<NodeSpec>, k: nat): Option<GraphError>
    requires k <= |nodes|
  {
    if k == 0 then None
    else if DepFault(nodes, k - 1).Some? then DepFault(nodes, k - 1)
    else EntryFault(nodes, nodes[k - 1], |nodes[k - 1].dependsOn|)
  }

  /** `n` lists `m` in its `dependsOn`. */
  ghost predicate SpecDepends(nodes: seq<NodeSpec>, n: NodeId, m: NodeId) {
    exists i :: 0 <= i < |nodes| && nodes[i].id == n && m in nodes[i].dependsOn
  }

  ghost predicate SpecCycle(nodes: seq<NodeSpec>, p: seq<NodeId>) {
    |p| >= 2 && p[0] == p[|p| - 1] && forall i :: 0 <= i < |p| - 1 ==> SpecDepends(nodes, p[i + 1], p[i])
  }

  ghost predicate SpecCyclic(nodes: seq<NodeSpec>) {
    exists p :: SpecCycle(nodes, p)
  }

  /** `g` has the specification's nodes and, entry by entry, its dependencies. */
  ghost predicate Represents(g: Graph, nodes: seq<NodeSpec>) {
    && (forall id :: id in g.nodes <==> Declares(nodes, id))
    && g.predecessors.Keys == g.nodes.Keys
    && |g.nodeOrder| == |nodes|
    && (forall i :: 0 <= i < |nodes| ==>
          && g.nodeOrder[i] == nodes[i].id
          && nodes[i].id in g.nodes && g.nodes[nodes[i].id] == nodes[i]
          && g.predecessors[nodes[i].id] == nodes[i].dependsOn)
  }

  // ---------------------------------------------------------------- building

  lemma DeclaresMore(nodes: seq<NodeSpec>, k: nat, id: NodeId)
    requires k < |nodes|
    ensures Declares(nodes[..k + 1], id) <==> Declares(nodes[..k], id) || id == nodes[k].id
  {
    if Declares(nodes[..k + 1], id) {
      var i :| 0 <= i < k + 1 && nodes[..k + 1][i].id == id;
      assert i < k ==> nodes[..k][i].id == id;
    }
    if Declares(nodes[..k], id) {
      var i :| 0 <= i < k && nodes[..k][i].id == id;
      assert nodes[..k + 1][i].id == id;
    }
    assert nodes[..k + 1][k] == nodes[k];
  }

  /** The first loop: collect the nodes, or stop at the first fault. */
  method CollectNodes(spec: seq<NodeSpec>)
    returns (fault: Option<GraphError>, nodes: map<NodeId, NodeSpec>, nodeOrder: seq<NodeId>)
    ensures fault == NodeFault(spec, |spec|)
    ensures fault.None? ==> |nodeOrder| == |spec|
    ensures fault.None? ==> forall id :: id in nodes <==> Declares(spec, id)
    ensures fault.None? ==> forall i :: 0 <= i < |spec| ==>
                nodeOrder[i] == spec[i].id && spec[i].id in nodes && nodes[spec[i].id] == spec[i]
  {
    nodes, nodeOrder := map[], [];
    var k := 0;
    while k < |spec|
      invariant 0 <= k <= |spec| && NodeFault(spec, k) == None && |nodeOrder| == k
      invariant forall id :: id in nodes <==> Declares(spec[..k], id)
      invariant forall i :: 0 <= i < k ==>
                  nodeOrder[i] == spec[i].id && spec[i].id in nodes && nodes[spec[i].id] == spec[i]
    {
      var n := spec[k];
      if n.id in nodes {
        FaultStays(spec, k + 1, |spec|);
        return Some(DuplicateNode(n.id)), nodes, nodeOrder;
      }
      if n.task.None? {
        FaultStays(spec, k + 1, |spec|);
        return Some(MissingTaskSpec(n.id)), nodes, nodeOrder;
      }
      forall id ensures Declares(spec[..k + 1], id) <==> Declares(spec[..k], id) || id == n.id {
        DeclaresMore(spec, k, id);
      }
      nodes := nodes[n.id := n];
      nodeOrder := nodeOrder + [n.id];
      k := k + 1;
    }
    assert spec[..k] == spec;
    fault := None;
  }

  lemma {:induction false} FaultStays(nodes: seq<NodeSpec>, j: nat, k: nat)
    requires j <= k <= |nodes| && NodeFault(nodes, j).Some?
    ensures NodeFault(nodes, k) == NodeFault(nodes, j)
  {
    if j < k {
      FaultStays(nodes, j, k - 1);
    }
  }

  lemma {:induction false} DepFaultStays(nodes: seq<NodeSpec>, j: nat, k: nat)
    requires j <= k <= |nodes| && DepFault(nodes, j).Some?
    ensures DepFault(nodes, k) == DepFault(nodes, j)
  {
    if j < k {
      DepFaultStays(nodes, j, k - 1);
    }
  }

  lemma {:induction false} EntryFaultStays(nodes: seq<NodeSpec>, n: NodeSpec, j: nat, k: nat)
    requires j <= k <= |n.dependsOn| && EntryFault(nodes, n, j).Some?
    ensures EntryFault(nodes, n, k) == EntryFault(nodes, n, j)
  {
    if j < k {
      EntryFaultStays(nodes, n, j, k - 1);
    }
  }

  /** The second loop: an empty adjacency list for every node. */
  method EmptyAdjacency(nodes: map<NodeId, NodeSpec>) returns (adj: map<NodeId, seq<NodeId>>)
    ensures adj.Keys == nodes.Keys && forall n :: n in adj ==> adj[n] == []
  {
    adj := map[];
    var todo := nodes.Keys;
    while todo != {}
      invariant todo <= nodes.Keys && adj.Keys == nodes.Keys - todo && forall n :: n in adj ==> adj[n] == []
      decreases todo
    {
      var id :| id in todo;
      adj := adj[id := []];
      todo := todo - {id};
    }
  }

  /** One dependency entry enters both maps, which stay balanced, self-loops included. */
  lemma EntryBalanced(preds: map<NodeId, seq<NodeId>>, succs: map<NodeId, seq<NodeId>>, n: NodeId, dep: NodeId)
    requires Balanced(preds, succs) && n in preds && dep in succs
    ensures Balanced(preds[n := preds[n] + [dep]], succs[dep := succs[dep] + [n]])
  {
    var p, s := preds[n := preds[n] + [dep]], succs[dep := succs[dep] + [n]];
    forall x, y ensures Entries(p, x, y) == Entries(s, y, x) {
      assert Entries(preds, x, y) == Entries(succs, y, x);
    }
  }

  /** The adjacency maps while the third loop is at entry `j` of node `k`. */
  ghost predicate Linking(spec: seq<NodeSpec>, ids: set<NodeId>, preds: map<NodeId, seq<NodeId>>,
                          succs: map<NodeId, seq<NodeId>>, k: nat, j: nat) {
    && k <= |spec| && (k < |spec| ==> j <= |spec[k].dependsOn|)
    && Closed(ids, preds) && Closed(ids, succs) && Balanced(preds, succs)
    && (forall i :: 0 <= i < |spec| ==> spec[i].id in preds)
    && (forall i :: 0 <= i < k ==> preds[spec[i].id] == spec[i].dependsOn)
    && (k < |spec| ==> preds[spec[k].id] == spec[k].dependsOn[..j])
    && (forall i :: k < i < |spec| ==> preds[spec[i].id] == [])
  }

  ghost predicate DistinctIds(spec: seq<NodeSpec>) {
    forall i, j :: 0 <= i < j < |spec| ==> spec[i].id != spec[j].id
  }

  lemma LinkEntry(spec: seq<NodeSpec>, ids: set<NodeId>, preds: map<NodeId, seq<NodeId>>,
                  succs: map<NodeId, seq<NodeId>>, k: nat, j: nat)
    requires DistinctIds(spec) && Linking(spec, ids, preds, succs, k, j)
    requires k < |spec| && j < |spec[k].dependsOn| && spec[k].dependsOn[j] in ids
    ensures var n, dep := spec[k].id, spec[k].dependsOn[j];
            && n in preds && dep in succs
            && Linking(spec, ids, preds[n := preds[n] + [dep]], succs[dep := succs[dep] + [n]], k, j + 1)
  {
    var n, dep := spec[k].id, spec[k].dependsOn[j];
    EntryBalanced(preds, succs, n, dep);
    assert spec[k].dependsOn[..j + 1] == spec[k].dependsOn[..j] + [dep];
  }

  /** After its last entry a node is linked. */
  lemma NodeLinked(spec: seq<NodeSpec>, ids: set<NodeId>, preds: map<NodeId, seq<NodeId>>,
                   succs: map<NodeId, seq<NodeId>>, k: nat)
    requires k < |spec| && Linking(spec, ids, preds, succs, k, |spec[k].dependsOn|)
    ensures Linking(spec, ids, preds, succs, k + 1, 0)
  {
    assert spec[k].dependsOn[..|spec[k].dependsOn|] == spec[k].dependsOn;
  }

  /** What the next entry does to the search for a fault. */
  lemma EntrySearched(spec: seq<NodeSpec>, n: NodeSpec, j: nat)
    requires j < |n.dependsOn| && EntryFault(spec, n, j) == None
    ensures Declares(spec, n.dependsOn[j]) ==> EntryFault(spec, n, j + 1) == None
    ensures !Declares(spec, n.dependsOn[j]) ==>
              EntryFault(spec, n, |n.dependsOn|) == Some(NodeNotFound(n.dependsOn[j], n.id))
  {
    EntryFaultStaysIf(spec, n, j + 1);
  }

  lemma EntryFaultStaysIf(spec: seq<NodeSpec>, n: NodeSpec, j: nat)
    requires j <= |n.dependsOn|
    ensures EntryFault(spec, n, j).Some? ==> EntryFault(spec, n, |n.dependsOn|) == EntryFault(spec, n, j)
  {
    if EntryFault(spec, n, j).Some? {
      EntryFaultStays(spec, n, j, |n.dependsOn|);
    }
  }

  /** Of the node's dependencies exactly the declared ones are in the map. */
  ghost predicate KnowsDependencies(n: NodeSpec, spec: seq<NodeSpec>, nodes: map<NodeId, NodeSpec>) {
    forall j :: 0 <= j < |n.dependsOn| ==> (n.dependsOn[j] in nodes <==> Declares(spec, n.dependsOn[j]))
  }

  /** One dependency entry enters both maps, unless it is undeclared. */
  method LinkDep(spec: seq<NodeSpec>, nodes: map<NodeId, NodeSpec>, k: nat, j: nat, preds0: map<NodeId, seq<NodeId>>,
                 succs0: map<NodeId, seq<NodeId>>)
    returns (fault: Option<GraphError>, preds: map<NodeId, seq<NodeId>>, succs: map<NodeId, seq<NodeId>>)
    requires DistinctIds(spec) && k < |spec| && j < |spec[k].dependsOn|
    requires spec[k].dependsOn[j] in nodes <==> Declares(spec, spec[k].dependsOn[j])
    requires EntryFault(spec, spec[k], j) == None
    requires Linking(spec, nodes.Keys, preds0, succs0, k, j)
    ensures fault.Some? ==> fault == EntryFault(spec, spec[k], |spec[k].dependsOn|)
    ensures fault.None? ==>
              EntryFault(spec, spec[k], j + 1) == None && Linking(spec, nodes.Keys, preds, succs, k, j + 1)
  {
    preds, succs := preds0, succs0;
    var n, dep := spec[k].id, spec[k].dependsOn[j];
    EntrySearched(spec, spec[k], j);
    if dep !in nodes {
      return Some(NodeNotFound(dep, n)), preds, succs;
    }
    LinkEntry(spec, nodes.Keys, preds, succs, k, j);
    preds := preds[n := preds[n] + [dep]];
    succs := succs[dep := succs[dep] + [n]];
    fault := None;
  }

  /** The dependencies of one node enter both maps, up to the first undeclared one. */
  method LinkNode(spec: seq<NodeSpec>, nodes: map<NodeId, NodeSpec>, k: nat, preds0: map<NodeId, seq<NodeId>>,
                  succs0: map<NodeId, seq<NodeId>>)
    returns (fault: Option<GraphError>, preds: map<NodeId, seq<NodeId>>, succs: map<NodeId, seq<NodeId>>)
    requires DistinctIds(spec) && k < |spec| && KnowsDependencies(spec[k], spec, nodes)
    requires Linking(spec, nodes.Keys, preds0, succs0, k, 0)
    ensures fault == EntryFault(spec, spec[k], |spec[k].dependsOn|)
    ensures fault.None? ==> Linking(spec, nodes.Keys, preds, succs, k, |spec[k].dependsOn|)
  {
    fault, preds, succs := None, preds0, succs0;
    var j := 0;
    while j < |spec[k].dependsOn|
      invariant 0 <= j <= |spec[k].dependsOn| && fault == None && EntryFault(spec, spec[k], j) == None
      invariant Linking(spec, nodes.Keys, preds, succs, k, j)
    {
      fault, preds, succs := LinkDep(spec, nodes, k, j, preds, succs);
      if fault.Some? {
        return;
      }
      j := j + 1;
    }
  }

  lemma StartLinking(spec: seq<NodeSpec>, ids: set<NodeId>,
                     preds: map<NodeId, seq<NodeId>>, succs: map<NodeId, seq<NodeId>>)
    requires preds.Keys == ids == succs.Keys && forall i :: 0 <= i < |spec| ==> spec[i].id in ids
    requires forall n :: n in ids ==> preds[n] == [] && succs[n] == []
    ensures Linking(spec, ids, preds, succs, 0, 0)
  {
    forall n, m ensures Entries(preds, n, m) == Entries(succs, m, n) {
      assert Entries(preds, n, m) == 0 && Entries(succs, m, n) == 0;
    }
    assert |spec| > 0 ==> spec[0].dependsOn[..0] == [];
  }

  /** The search for a fault goes on behind node `k` if that node has none. */
  lemma NodeSearched(spec: seq<NodeSpec>, k: nat)
    requires k < |spec| && DepFault(spec, k) == None
    ensures DepFault(spec, k + 1) == EntryFault(spec, spec[k], |spec[k].dependsOn|)
    ensures DepFault(spec, k + 1).Some? ==> DepFault(spec, |spec|) == DepFault(spec, k + 1)
  {
    if DepFault(spec, k + 1).Some? {
      DepFaultStays(spec, k + 1, |spec|);
    }
  }

  /** The third loop: enter every dependency into both maps, or stop at the first undeclared one. */
  method Link(spec: seq<NodeSpec>, nodes: map<NodeId, NodeSpec>)
    returns (fault: Option<GraphError>, preds: map<NodeId, seq<NodeId>>, succs: map<NodeId, seq<NodeId>>)
    requires DistinctIds(spec)
    requires forall i :: 0 <= i < |spec| ==> spec[i].id in nodes && KnowsDependencies(spec[i], spec, nodes)
    ensures fault == DepFault(spec, |spec|)
    ensures fault.None? ==> Linking(spec, nodes.Keys, preds, succs, |spec|, 0)
  {
    preds := EmptyAdjacency(nodes);
    succs := EmptyAdjacency(nodes);
    StartLinking(spec, nodes.Keys, preds, succs);
    fault := None;
    var k := 0;
    while k < |spec|
      invariant 0 <= k <= |spec| && fault == None && DepFault(spec, k) == None
      invariant Linking(spec, nodes.Keys, preds, succs, k, 0)
    {
      NodeSearched(spec, k);
      fault, preds, succs := LinkNode(spec, nodes, k, preds, succs);
      if fault.Some? {
        return;
      }
      NodeLinked(spec, nodes.Keys, preds, succs, k);
      k := k + 1;
    }
  }

  lemma {:induction false} CleanIdsDiffer(nodes: seq<NodeSpec>, k: nat, i: nat, j: nat)
    requires i < j < k <= |nodes| && NodeFault(nodes, k) == None
    ensures nodes[i].id != nodes[j].id
  {
    if j < k - 1 {
      CleanIdsDiffer(nodes, k - 1, i, j);
    } else {
      assert nodes[..k - 1][i].id == nodes[i].id;
    }
  }

  /** Chains of the graph are chains of the specification. */
  lemma CyclesAgree(g: Graph, nodes: seq<NodeSpec>)
    requires WellFormed(g) && Represents(g, nodes)
    ensures forall n, m :: DependsOn(g, n, m) <==> SpecDepends(nodes, n, m)
    ensures Cyclic(g) <==> SpecCyclic(nodes)
  {
    forall n, m ensures DependsOn(g, n, m) <==> SpecDepends(nodes, n, m) {
      if n in g.nodes {
        var i :| 0 <= i < |nodes| && nodes[i].id == n;
      }
    }
    if Cyclic(g) {
      var p :| Cycle(g, p);
      assert SpecCycle(nodes, p);
    }
    if SpecCyclic(nodes) {
      var p :| SpecCycle(nodes, p);
      forall i | 0 <= i < |p| ensures p[i] in g.nodes {
        var j := if i == 0 then |p| - 2 else i - 1;
        assert SpecDepends(nodes, p[j + 1], p[j]);
      }
      assert forall i :: 0 <= i < |p| - 1 ==> DependsOn(g, p[i + 1], p[i]);
      assert Cycle(g, p);
    }
  }

  /**
   NewGraph accepts exactly the non-empty specifications with distinct ids, a task
   on every node, declared dependencies and no dependency cycle; otherwise it
   reports the first fault in the order it looks for them.
   */
  method NewGraph(spec: Option<DagSpec>) returns (r: Result<Graph, GraphError>)
    ensures spec.None? || spec.value.nodes == [] ==> r == Err(EmptyDAG)
    ensures spec.Some? && spec.value.nodes != [] ==>
              var ns := spec.value.nodes;
              if NodeFault(ns, |ns|).Some? then r == Err(NodeFault(ns, |ns|).value)
              else if DepFault(ns, |ns|).Some? then r == Err(DepFault(ns, |ns|).value)
              else if SpecCyclic(ns) then r == Err(CycleDetected)
              else r.Ok? && WellFormed(r.value) && Represents(r.value, ns) && r.value.dagId == spec.value.dagId
  {
    if spec.None? || |spec.value.nodes| == 0 {
      return Err(EmptyDAG);
    }
    var ns := spec.value.nodes;
    var fault, nodes, nodeOrder := CollectNodes(ns);
    if fault.Some? {
      return Err(fault.value);
    }
    forall i, j | 0 <= i < j < |ns| ensures ns[i].id != ns[j].id {
      CleanIdsDiffer(ns, |ns|, i, j);
    }
    forall i | 0 <= i < |ns| ensures ns[i].id in nodes && KnowsDependencies(ns[i], ns, nodes) {
      assert Declares(ns, ns[i].id);
    }
    var predecessors, successors;
    fault, predecessors, successors := Link(ns, nodes);
    if fault.Some? {
      return Err(fault.value);
    }
    var g := Graph(spec.value.dagId, nodes, successors, predecessors, nodeOrder);
    CyclesAgree(g, ns);
    var sorted := Kahn.TopologicalSort(g);
    if sorted.Err? {
      return Err(sorted.error);
    }
    r := Ok(g);
  }

  /**
   Two specifications with the same nodes and the same dependencies are layered
   identically, whatever the order of nodes and entries and however often an
   entry is repeated.
   */
  lemma SpecOrderIrrelevant(g: Graph, a: seq<NodeSpec>, l: seq<seq<NodeId>>,
                            h: Graph, b: seq<NodeSpec>, r: seq<seq<NodeId>>)
    requires WellFormed(g) && Represents(g, a) && Kahn.Layering(g, l)
    requires WellFormed(h) && Represents(h, b) && Kahn.Layering(h, r)
    requires forall id :: Declares(a, id) <==> Declares(b, id)
    requires forall n, m :: SpecDepends(a, n, m) <==> SpecDepends(b, n, m)
    ensures l == r
  {
    CyclesAgree(g, a);
    CyclesAgree(h, b);
    Kahn.Canonical(g, l, h, r);
  }
}
