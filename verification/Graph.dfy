/** DAG specifications and the validated graph built from them. */
module DagGraph {
  import opened Types
  import opened Ordering

  datatype TaskSpec = TaskSpec(taskId: TaskId, prompt: string, modelTier: string, priority: real)

  /** A node of the request; its edges are its `dependsOn` entries. */
  datatype NodeSpec = NodeSpec(id: NodeId, task: Option<TaskSpec>, dependsOn: seq<NodeId>)

  datatype DagSpec = DagSpec(dagId: string, nodes: seq<NodeSpec>)

  datatype GraphError =
    | EmptyDAG
    | DuplicateNode(id: NodeId)
    | MissingTaskSpec(id: NodeId)
    | NodeNotFound(dep: NodeId, by': NodeId)
    | CycleDetected

  datatype Graph = Graph(
    dagId: string,
    nodes: map<NodeId, NodeSpec>,
    successors: map<NodeId, seq<NodeId>>,
    predecessors: map<NodeId, seq<NodeId>>,
    nodeOrder: seq<NodeId>)

  /** How often `to` is listed at `from`. */
  ghost function Entries(adj: map<NodeId, seq<NodeId>>, from: NodeId, to: NodeId): nat {
    if from in adj then multiset(adj[from])[to] else 0
  }

  /** Each dependency entry appears once on either side. */
  ghost predicate Balanced(preds: map<NodeId, seq<NodeId>>, succs: map<NodeId, seq<NodeId>>) {
    forall n, m :: Entries(preds, n, m) == Entries(succs, m, n)
  }

  ghost predicate Closed(ids: set<NodeId>, adj: map<NodeId, seq<NodeId>>) {
    adj.Keys == ids && forall n, m :: n in adj && m in adj[n] ==> m in ids
  }

  ghost predicate WellFormed(g: Graph) {
    && Closed(g.nodes.Keys, g.predecessors)
    && Closed(g.nodes.Keys, g.successors)
    && Balanced(g.predecessors, g.successors)
  }

  /** `n` lists `m` among its dependencies. */
  predicate DependsOn(g: Graph, n: NodeId, m: NodeId) {
    n in g.predecessors && m in g.predecessors[n]
  }

  /** A dependency chain: each node is a dependency of the next. */
  ghost predicate Chain(g: Graph, p: seq<NodeId>) {
    && p != []
    && (forall i :: 0 <= i < |p| ==> p[i] in g.nodes)
    && (forall i :: 0 <= i < |p| - 1 ==> DependsOn(g, p[i + 1], p[i]))
  }

  ghost predicate ChainTo(g: Graph, p: seq<NodeId>, n: NodeId) {
    Chain(g, p) && p[|p| - 1] == n
  }

  /** A chain of at least one dependency that ends where it began; a self-loop is one. */
  ghost predicate Cycle(g: Graph, p: seq<NodeId>) {
    Chain(g, p) && |p| >= 2 && p[0] == p[|p| - 1]
  }

  ghost predicate Cyclic(g: Graph) {
    exists p :: Cycle(g, p)
  }
}
