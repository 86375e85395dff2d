/**
 The executor object: validation and registration of an execution, and the level
 loop.  The goroutines of a level are scheduled arbitrarily, one step at a time,
 until all are done.
 */
module ExecutorService {
  import opened Types
  import opened DagGraph
  import opened NewGraph
  import opened Status
  import opened ExecutorRuns
  import Kahn = TopologicalSort

  /** What Execute hands to the background run. */
  datatype Plan = Plan(graph: Graph, levels: seq<seq<NodeId>>)

  /** The specification is refused. */
  ghost predicate Refused(spec: Option<DagSpec>) {
    || spec.None? || spec.value.nodes == []
    || NodeFault(spec.value.nodes, |spec.value.nodes|).Some?
    || DepFault(spec.value.nodes, |spec.value.nodes|).Some?
    || SpecCyclic(spec.value.nodes)
  }

  /** How many steps a goroutine still has to make. */
  function Rank(pc: NodePc): nat {
    match pc
    case NotSpawned => 7
    case Spawned => 6
    case Marked => 5
    case Submitted => 4
    case Returned(_) => 3
    case FailureMarked => 2
    case Done(_) => 0
  }

  function Left(pcs: map<NodeId, NodePc>, level: seq<NodeId>): nat
    requires forall n :: n in level ==> n in pcs
  {
    if level == [] then 0 else Rank(pcs[level[0]]) + Left(pcs, level[1..])
  }

  lemma {:induction false} LeftDrops(pcs: map<NodeId, NodePc>, level: seq<NodeId>, n: NodeId, pc: NodePc)
    requires forall m :: m in level ==> m in pcs
    requires n in pcs && Rank(pc) < Rank(pcs[n])
    ensures Left(pcs[n := pc], level) <= Left(pcs, level)
    ensures n in level ==> Left(pcs[n := pc], level) < Left(pcs, level)
  {
    if level != [] {
      LeftDrops(pcs, level[1..], n, pc);
    }
  }

  class Executor {
    const tracker: StatusTracker

    constructor (t: StatusTracker)
      ensures tracker == t
    {
      tracker := t;
    }

    /**
     A refused specification leaves no trace; an accepted one is registered, all nodes
     PENDING, with a layering to run by, before Execute returns.
     */
    method Execute(spec: Option<DagSpec>, execID: string, now: Time) returns (r: Result<Plan, GraphError>)
      modifies tracker
      ensures r.Err? <==> Refused(spec)
      ensures r.Err? ==>
                r.error == if spec.None? || spec.value.nodes == [] then EmptyDAG
                           else if NodeFault(spec.value.nodes, |spec.value.nodes|).Some?
                           then NodeFault(spec.value.nodes, |spec.value.nodes|).value
                           else if DepFault(spec.value.nodes, |spec.value.nodes|).Some?
                           then DepFault(spec.value.nodes, |spec.value.nodes|).value
                           else CycleDetected
      ensures r.Err? ==> tracker.records == old(tracker.records)
      ensures r.Ok? ==>
                && Represents(r.value.graph, spec.value.nodes)
                && Started(r.value.graph, r.value.levels)
                && tracker.records == old(tracker.records)[execID :=
                     Created(r.value.graph.dagId, r.value.graph.nodes.Keys, now)]
    {
      var graph := NewGraph.NewGraph(spec);
      if graph.Err? {
        return Err(graph.error);
      }
      CyclesAgree(graph.value, spec.value.nodes);
      // NewGraph has sorted the graph already, so this cannot fail.
      var levels := Kahn.TopologicalSort(graph.value);
      assert levels.Ok?;
      tracker.CreateExecution(execID, graph.value.dagId, graph.value.nodeOrder, now);
      OrderIsNodes(graph.value, spec.value.nodes);
      assert spec.value.nodes[0].id in graph.value.nodes;
      r := Ok(Plan(graph.value, levels.value));
    }

    /** The next step of one goroutine, its spawning included; SubmitTask may answer either way. */
    method StepNode(execID: string, n: NodeId, pc: NodePc) returns (act: Action, ghost e: Event)
      requires execID in tracker.records && !pc.Done?
      modifies tracker
      ensures act == e.act && OneNode(act) && act.n == n && Follows(pc, act)
      ensures tracker.records == old(tracker.records)[execID := Marks(old(tracker.records)[execID], e)]
    {
      var now: Time := *;
      var message: string := *;
      match pc {
        case NotSpawned =>
          act := Spawn(n);
        case Spawned =>
          tracker.MarkNodeRunning(execID, n, now);
          act := MarkRunning(n);
        case Marked =>
          act := Submit(n);
        case Submitted =>
          var ok: bool := *;
          act := Return(n, ok);
        case Returned(ok) =>
          if ok {
            tracker.MarkNodeCompleted(execID, n, now);
            act := MarkCompleted(n);
          } else {
            tracker.MarkNodeFailed(execID, n, Failure.Returned(message), now);
            act := MarkFailed(n);
          }
        case FailureMarked =>
          act := CancelRun(n);
      }
      e := Event(act, now, message);
    }

    /** The run so far, the tracker's record included, is the step system's. */
    ghost predicate Tied(execID: string, x: Exec, pcs: map<NodeId, NodePc>, cancelled: bool,
                         before: map<string, Record>)
      reads tracker
    {
      execID in before && tracker.records == before[execID := x.record] && x.pcs == pcs && x.cancelled == cancelled
    }

    /** One goroutine of the level makes a step. */
    method RunOne(execID: string, g: Graph, levels: seq<seq<NodeId>>, k: nat, n: NodeId, pcs0: map<NodeId, NodePc>,
                  cancelled0: bool, ghost x0: Exec, ghost before: map<string, Record>)
      returns (pcs: map<NodeId, NodePc>, cancelled: bool, ghost x: Exec)
      requires k < |levels| && n in levels[k] && n in pcs0 && !pcs0[n].Done?
      requires Reachable(g, levels, x0) && x0.phase == Fanning(k) && Tied(execID, x0, pcs0, cancelled0, before)
      modifies tracker
      ensures Reachable(g, levels, x) && x.phase == Fanning(k) && Tied(execID, x, pcs, cancelled, before)
      ensures pcs.Keys == pcs0.Keys && pcs == pcs0[n := pcs[n]] && Rank(pcs[n]) < Rank(pcs0[n])
    {
      var act, e := StepNode(execID, n, pcs0[n]);
      FollowsEnabled(levels, x0, e);
      ReachableNext(g, levels, x0, e);
      x := Next(x0, levels, act, e.now, e.message);
      pcs := pcs0[n := Reached(act)];
      cancelled := cancelled0 || act.CancelRun?;
    }

    /** One level: its goroutines, scheduled in any order, until the barrier lets run go on. */
    method RunLevel(execID: string, g: Graph, levels: seq<seq<NodeId>>, k: nat, pcs0: map<NodeId, NodePc>,
                    cancelled0: bool, ghost x0: Exec, ghost before: map<string, Record>)
      returns (pcs: map<NodeId, NodePc>, cancelled: bool, ghost x: Exec)
      requires k < |levels| && forall n :: n in levels[k] ==> n in pcs0
      requires Reachable(g, levels, x0) && x0.phase == Fanning(k) && Tied(execID, x0, pcs0, cancelled0, before)
      modifies tracker
      ensures Reachable(g, levels, x) && x.phase == Fanning(k) && Tied(execID, x, pcs, cancelled, before)
      ensures pcs.Keys == pcs0.Keys && Enabled(x, levels, ExecutorRuns.Advance)
    {
      pcs, cancelled, x := pcs0, cancelled0, x0;
      var level := levels[k];
      while exists n :: n in level && !pcs[n].Done?
        invariant Reachable(g, levels, x) && x.phase == Fanning(k) && Tied(execID, x, pcs, cancelled, before)
        invariant pcs.Keys == pcs0.Keys
        decreases Left(pcs, level)
      {
        var n :| n in level && !pcs[n].Done?;
        ghost var was := pcs;
        pcs, cancelled, x := RunOne(execID, g, levels, k, n, pcs, cancelled, x, before);
        LeftDrops(was, level, n, pcs[n]);
        var shutdown: bool := *;
        if shutdown {
          ReachableNext(g, levels, x, Event(Shutdown, 0, ""));
          x := Next(x, levels, Shutdown, 0, "");
          cancelled := true;
        }
      }
    }

    /** One later node is marked as skipped. */
    method SkipOne(execID: string, g: Graph, levels: seq<seq<NodeId>>, ghost x0: Exec, k: nat, i: nat,
                   ghost pcs: map<NodeId, NodePc>, ghost before: map<string, Record>)
      returns (ghost x: Exec)
      requires k < |levels| && i < |levels[k]| && x0.phase.Skipping? && x0.phase == Skipping(x0.phase.from, k, i)
      requires Reachable(g, levels, x0) && Tied(execID, x0, pcs, true, before)
      modifies tracker
      ensures Reachable(g, levels, x) && Tied(execID, x, pcs, true, before)
      ensures x.phase == Skipping(x0.phase.from, k, i + 1)
    {
      var now: Time := *;
      tracker.MarkNodeFailed(execID, levels[k][i], Skipped, now);
      ReachableNext(g, levels, x0, Event(SkipNode, now, ""));
      x := Next(x0, levels, SkipNode, now, "");
    }

    /** The nodes of the later levels are marked as skipped, one by one. */
    method SkipRest(execID: string, g: Graph, levels: seq<seq<NodeId>>, ghost x0: Exec, k0: nat,
                    ghost pcs: map<NodeId, NodePc>, ghost before: map<string, Record>)
      returns (ghost x: Exec)
      requires Reachable(g, levels, x0) && Tied(execID, x0, pcs, true, before)
      requires k0 <= |levels| && x0.phase.Skipping? && x0.phase == Skipping(x0.phase.from, k0, 0)
      modifies tracker
      ensures Reachable(g, levels, x) && x.phase.Finished? && Tied(execID, x, pcs, true, before)
    {
      x := x0;
      var k := k0;
      while k < |levels|
        invariant k <= |levels| && Reachable(g, levels, x) && Tied(execID, x, pcs, true, before)
        invariant x.phase == Skipping(x0.phase.from, k, 0)
      {
        var i := 0;
        while i < |levels[k]|
          invariant 0 <= i <= |levels[k]| && Reachable(g, levels, x) && Tied(execID, x, pcs, true, before)
          invariant x.phase == Skipping(x0.phase.from, k, i)
        {
          x := SkipOne(execID, g, levels, x, k, i, pcs, before);
          i := i + 1;
        }
        ReachableNext(g, levels, x, Event(SkipNode, 0, ""));
        x := Next(x, levels, SkipNode, 0, "");
        k := k + 1;
      }
      ReachableNext(g, levels, x, Event(SkipNode, 0, ""));
      x := Next(x, levels, SkipNode, 0, "");
    }

    /** One round of the level loop: the level, the barrier, and the skipping if the run was cancelled. */
    method RunAndAdvance(execID: string, g: Graph, levels: seq<seq<NodeId>>, k: nat, pcs0: map<NodeId, NodePc>,
                         cancelled0: bool, ghost x0: Exec, ghost before: map<string, Record>)
      returns (pcs: map<NodeId, NodePc>, cancelled: bool, ghost x: Exec, over: bool)
      requires Kahn.Layering(g, levels) && k < |levels| && pcs0.Keys == g.nodes.Keys
      requires Reachable(g, levels, x0) && x0.phase == Fanning(k) && Tied(execID, x0, pcs0, cancelled0, before)
      modifies tracker
      ensures Reachable(g, levels, x) && Tied(execID, x, pcs, cancelled, before) && pcs.Keys == g.nodes.Keys
      ensures over == (cancelled || k + 1 == |levels|)
      ensures if over then x.phase.Finished? else x.phase == Fanning(k + 1)
    {
      LevelSpawnable(g, levels, k);
      pcs, cancelled, x := RunLevel(execID, g, levels, k, pcs0, cancelled0, x0, before);
      ReachableNext(g, levels, x, Event(ExecutorRuns.Advance, 0, ""));
      x := Next(x, levels, ExecutorRuns.Advance, 0, "");
      over := k + 1 == |levels|;
      if cancelled {
        x := SkipRest(execID, g, levels, x, k + 1, pcs, before);
        over := true;
      }
    }

    /**
     run: afterwards every node of the execution is COMPLETED or FAILED, the execution is
     COMPLETED exactly when every submission returned nil, and no other execution changed.
     */
    method Run(execID: string, g: Graph, levels: seq<seq<NodeId>>, ghost created: Time) returns (ghost x: Exec)
      requires Started(g, levels) && execID in tracker.records
      requires tracker.records[execID] == Created(g.dagId, g.nodes.Keys, created)
      modifies tracker
      ensures Reachable(g, levels, x) && x.phase.Finished?
      ensures tracker.records == old(tracker.records)[execID := x.record]
      ensures Outcome(g, x)
    {
      ghost var before := tracker.records;
      var pcs := map n | n in g.nodes :: NotSpawned;
      var cancelled := false;
      x := Exec(Fanning(0), pcs, false, before[execID], multiset{});
      ReachableStart(g, levels, x, created);
      var levelIdx, over := 0, false;
      while !over
        invariant levelIdx <= |levels| && Reachable(g, levels, x) && Tied(execID, x, pcs, cancelled, before)
        invariant pcs.Keys == g.nodes.Keys
        invariant if over then x.phase.Finished? else levelIdx < |levels| && x.phase == Fanning(levelIdx)
        decreases |levels| - levelIdx, !over
      {
        pcs, cancelled, x, over := RunAndAdvance(execID, g, levels, levelIdx, pcs, cancelled, x, before);
        levelIdx := levelIdx + 1;
      }
      ReachableOutcome(g, levels, x);
    }
  }

  /** How an execution stands when run has returned. */
  ghost predicate Outcome(g: Graph, x: Exec) {
    && (forall n :: n in g.nodes ==>
          n in x.record.nodes && x.record.nodes[n].state in {Completed, Failed}
          && (x.record.nodes[n].state == Completed <==> n in x.submissions && n in x.pcs && x.pcs[n] == Done(true)))
    && x.record.state == if AllCompleted(x.record.nodes) then Completed else Failed
  }

  /** Some run of the step system leads here. */
  ghost predicate Reachable(g: Graph, levels: seq<seq<NodeId>>, x: Exec) {
    exists states, events :: ExecutorRuns.Run(g, levels, states, events) && Ends(states, x)
  }

  ghost predicate Ends(states: seq<Exec>, x: Exec) {
    states != [] && states[|states| - 1] == x
  }

  lemma ReachableStart(g: Graph, levels: seq<seq<NodeId>>, x: Exec, created: Time)
    requires Started(g, levels)
    requires x == Exec(Fanning(0), map n | n in g.nodes :: NotSpawned, false,
                       Created(g.dagId, g.nodes.Keys, created), multiset{})
    ensures Reachable(g, levels, x) && 0 < |levels|
  {
    assert ExecutorRuns.Run(g, levels, [x], []) && Ends([x], x);
    StartInv(g, levels, x);
  }

  lemma ReachableNext(g: Graph, levels: seq<seq<NodeId>>, x: Exec, e: Event)
    requires Reachable(g, levels, x) && Enabled(x, levels, e.act)
    ensures Reachable(g, levels, Next(x, levels, e.act, e.now, e.message))
  {
    var states, events :| ExecutorRuns.Run(g, levels, states, events) && Ends(states, x);
    var y := Next(x, levels, e.act, e.now, e.message);
    var states', events' := states + [y], events + [e];
    forall i | 0 <= i < |events'|
      ensures Enabled(states'[i], levels, events'[i].act)
              && states'[i + 1] == Next(states'[i], levels, events'[i].act, events'[i].now, events'[i].message)
    {
      if i < |events| {
        assert states'[i] == states[i] && states'[i + 1] == states[i + 1] && events'[i] == events[i];
      }
    }
    assert states'[0] == states[0];
    assert ExecutorRuns.Run(g, levels, states', events') && Ends(states', y);
  }

  lemma ReachableOutcome(g: Graph, levels: seq<seq<NodeId>>, x: Exec)
    requires Reachable(g, levels, x) && x.phase.Finished?
    ensures Outcome(g, x)
  {
    var states, events :| ExecutorRuns.Run(g, levels, states, events) && Ends(states, x);
    RunInv(g, levels, states, events, |states| - 1);
    FinishedNodes(g, levels, x);
  }

  lemma LevelSpawnable(g: Graph, levels: seq<seq<NodeId>>, k: nat)
    requires Kahn.Layering(g, levels) && k < |levels|
    ensures forall n :: n in levels[k] ==> n in g.nodes
  {
    forall n | n in levels[k] ensures n in g.nodes {
      LevelNodes(g, levels, n);
    }
  }

  /** The step a goroutine at `pc` makes next. */
  predicate Follows(pc: NodePc, act: Action) {
    match pc
    case NotSpawned => act.Spawn?
    case Spawned => act.MarkRunning?
    case Marked => act.Submit?
    case Submitted => act.Return?
    case Returned(ok) => if ok then act.MarkCompleted? else act.MarkFailed?
    case FailureMarked => act.CancelRun?
    case Done(_) => false
  }

  /** Where that step leaves it. */
  function Reached(act: Action): NodePc
    requires OneNode(act)
  {
    match act
    case Spawn(_) => Spawned
    case MarkRunning(_) => Marked
    case Submit(_) => Submitted
    case Return(_, ok) => NodePc.Returned(ok)
    case MarkFailed(_) => FailureMarked
    case CancelRun(_) => Done(false)
    case MarkCompleted(_) => Done(true)
  }

  /** What it does to the execution's record. */
  function Marks(r: Record, e: Event): Record {
    match e.act
    case MarkRunning(n) => MarkedRunning(r, n, e.now)
    case MarkFailed(n) => MarkedFailed(r, n, Failure.Returned(e.message), e.now)
    case MarkCompleted(n) => MarkedCompleted(r, n, e.now)
    case _ => r
  }

  lemma FollowsEnabled(levels: seq<seq<NodeId>>, x: Exec, e: Event)
    requires OneNode(e.act) && e.act.n in x.pcs && Follows(x.pcs[e.act.n], e.act)
    requires x.phase.Fanning? && x.phase.level < |levels| && e.act.n in levels[x.phase.level]
    ensures Enabled(x, levels, e.act) && Rank(Reached(e.act)) < Rank(x.pcs[e.act.n])
    ensures var y := Next(x, levels, e.act, e.now, e.message);
            && y.record == Marks(x.record, e) && y.pcs == x.pcs[e.act.n := Reached(e.act)]
            && y.cancelled == (x.cancelled || e.act.CancelRun?) && y.phase == x.phase
  {
  }

  /** What run may rely on. */
  ghost predicate Started(g: Graph, levels: seq<seq<NodeId>>) {
    WellFormed(g) && Kahn.Layering(g, levels) && g.nodes != map[]
  }

  lemma OrderIsNodes(g: Graph, nodes: seq<NodeSpec>)
    requires Represents(g, nodes)
    ensures (set n | n in g.nodeOrder) == g.nodes.Keys
  {
    forall n ensures n in g.nodeOrder <==> n in g.nodes {
      if n in g.nodes {
        var i :| 0 <= i < |nodes| && nodes[i].id == n;
        assert g.nodeOrder[i] == n;
      }
    }
  }
}
