/**
 The concurrent DAG executor: one goroutine per node of the current level, a
 barrier between levels, and fail-fast cancellation.  A submission may take any
 number of other steps and may return nil or an error at will.
 */
module ExecutorRuns {
  import opened Types
  import opened DagGraph
  import opened Status
  import Kahn = TopologicalSort

  /** executeNode, each constructor named after what has happened. */
  datatype NodePc =
    | NotSpawned
    | Spawned
    | Marked
    | Submitted
    | Returned(ok: bool)
    | FailureMarked
    | Done(ok: bool)

  /** run: a level is fanning out, later levels are being skipped, or run has returned. */
  datatype Phase = Fanning(level: nat) | Skipping(from: nat, level: nat, index: nat) | Finished(last: nat)

  datatype Exec = Exec(
    phase: Phase,
    pcs: map<NodeId, NodePc>,
    cancelled: bool,
    record: Record,
    submissions: multiset<NodeId>)

  datatype Action =
    | Spawn(n: NodeId)
    | MarkRunning(n: NodeId)
    | Submit(n: NodeId)
    | Return(n: NodeId, ok: bool)
    | MarkFailed(n: NodeId)
    | CancelRun(n: NodeId)
    | MarkCompleted(n: NodeId)
    | Shutdown
    | Advance
    | SkipNode

  /** The level whose goroutines run or ran last. */
  function Level(x: Exec): nat {
    match x.phase
    case Fanning(k) => k
    case Skipping(k, _, _) => k
    case Finished(k) => k
  }

  predicate Enabled(x: Exec, levels: seq<seq<NodeId>>, act: Action) {
    match act
    case Spawn(n) => x.phase.Fanning? && x.phase.level < |levels| && n in levels[x.phase.level]
                     && n in x.pcs && x.pcs[n] == NotSpawned
    case MarkRunning(n) => n in x.pcs && x.pcs[n] == Spawned
    case Submit(n) => n in x.pcs && x.pcs[n] == Marked
    case Return(n, _) => n in x.pcs && x.pcs[n] == Submitted
    case MarkFailed(n) => n in x.pcs && x.pcs[n] == NodePc.Returned(false)
    case CancelRun(n) => n in x.pcs && x.pcs[n] == FailureMarked
    case MarkCompleted(n) => n in x.pcs && x.pcs[n] == NodePc.Returned(true)
    case Shutdown => true
    case Advance => x.phase.Fanning? && x.phase.level < |levels|
                    && forall n :: n in levels[x.phase.level] ==> n in x.pcs && x.pcs[n].Done?
    case SkipNode => x.phase.Skipping?
  }

  function At(x: Exec, n: NodeId, pc: NodePc): Exec {
    x.(pcs := x.pcs[n := pc])
  }

  function Next(x: Exec, levels: seq<seq<NodeId>>, act: Action, now: Time, message: string): Exec
    requires Enabled(x, levels, act)
  {
    match act
    case Spawn(n) => At(x, n, Spawned)
    case MarkRunning(n) => At(x, n, Marked).(record := MarkedRunning(x.record, n, now))
    case Submit(n) => At(x, n, Submitted).(submissions := x.submissions + multiset{n})
    case Return(n, ok) => At(x, n, NodePc.Returned(ok))
    case MarkFailed(n) => At(x, n, FailureMarked).(record := MarkedFailed(x.record, n, Failure.Returned(message), now))
    case CancelRun(n) => At(x, n, Done(false)).(cancelled := true)
    case MarkCompleted(n) => At(x, n, Done(true)).(record := MarkedCompleted(x.record, n, now))
    case Shutdown => x.(cancelled := true)
    case Advance =>
      var k := x.phase.level;
      if x.cancelled then x.(phase := Skipping(k, k + 1, 0))
      else if k + 1 < |levels| then x.(phase := Fanning(k + 1))
      else x.(phase := Finished(k))
    case SkipNode =>
      var k, i := x.phase.level, x.phase.index;
      if k >= |levels| then x.(phase := Finished(x.phase.from))
      else if i >= |levels[k]| then x.(phase := Skipping(x.phase.from, k + 1, 0))
      else x.(phase := Skipping(x.phase.from, k, i + 1), record := MarkedFailed(x.record, levels[k][i], Skipped, now))
  }

  /** Execute has just registered the execution and forked run. */
  ghost predicate Start(g: Graph, levels: seq<seq<NodeId>>, x: Exec) {
    && WellFormed(g) && Kahn.Layering(g, levels) && g.nodes != map[]
    && x.phase == Fanning(0) && !x.cancelled && x.submissions == multiset{}
    && x.pcs == (map n | n in g.nodes :: NotSpawned)
    && exists now :: x.record == Created(g.dagId, g.nodes.Keys, now)
  }

  datatype Event = Event(act: Action, now: Time, message: string)

  ghost predicate Run(g: Graph, levels: seq<seq<NodeId>>, states: seq<Exec>, events: seq<Event>) {
    && |states| == |events| + 1
    && Start(g, levels, states[0])
    && forall i {:trigger events[i]} :: 0 <= i < |events| ==>
         && Enabled(states[i], levels, events[i].act)
         && states[i + 1] == Next(states[i], levels, events[i].act, events[i].now, events[i].message)
  }

  // ---------------------------------------------------------------- the invariant

  /** What a goroutine's progress says about its node in the tracker. */
  predicate Tracks(pc: NodePc, st: NodeStatus, x: Exec) {
    match pc
    case NotSpawned =>
      (st.state == Pending && st.error == Nothing) || (st.state == Failed && st.error == Skipped && !x.phase.Fanning?)
    case Spawned => st.state == Pending && st.error == Nothing
    case Marked => st.state == Running && st.error == Nothing
    case Submitted => st.state == Running && st.error == Nothing
    case Returned(_) => st.state == Running && st.error == Nothing
    case FailureMarked => st.state == Failed && st.error.Returned?
    case Done(true) => st.state == Completed && st.error == Nothing
    case Done(false) => st.state == Failed && st.error.Returned? && x.cancelled
  }

  /** SubmitTask has been called for the node. */
  predicate HasSubmitted(pc: NodePc) {
    pc.Submitted? || pc.Returned? || pc.FailureMarked? || pc.Done?
  }

  ghost predicate NodeOk(x: Exec, n: NodeId)
    requires n in x.pcs && n in x.record.nodes
  {
    && Tracks(x.pcs[n], x.record.nodes[n], x)
    && x.submissions[n] == (if HasSubmitted(x.pcs[n]) then 1 else 0)
  }

  /** Which nodes may have been spawned, and which must be finished. */
  ghost predicate PlaceOk(x: Exec, k: nat, n: NodeId)
    requires n in x.pcs
  {
    && (k < Level(x) ==> x.pcs[n] == Done(true))
    && (k == Level(x) && !x.phase.Fanning? ==> x.pcs[n].Done?)
    && (k > Level(x) ==> x.pcs[n] == NotSpawned)
  }

  /** The node at position i of level k has been passed by the skipping loop. */
  predicate Passed(x: Exec, k: nat, i: nat) {
    k > Level(x) && match x.phase
                    case Fanning(_) => false
                    case Skipping(_, l, j) => k < l || (k == l && i < j)
                    case Finished(_) => true
  }

  ghost predicate PhaseOk(x: Exec, levels: seq<seq<NodeId>>) {
    Level(x) < |levels| && (x.phase.Skipping? ==> x.cancelled && x.phase.level > x.phase.from)
  }

  ghost predicate Places(g: Graph, levels: seq<seq<NodeId>>, x: Exec) {
    && x.pcs.Keys == g.nodes.Keys == x.record.nodes.Keys
    && (forall n :: n in g.nodes ==> NodeOk(x, n))
    && (forall k, n :: 0 <= k < |levels| && n in levels[k] ==> n in g.nodes && PlaceOk(x, k, n))
    && (forall k, i {:trigger Passed(x, k, i)} :: 0 <= k < |levels| && 0 <= i < |levels[k]| && Passed(x, k, i) ==>
          levels[k][i] in g.nodes && x.record.nodes[levels[k][i]].state == Failed)
    && PhaseOk(x, levels)
  }

  ghost predicate Inv(g: Graph, levels: seq<seq<NodeId>>, x: Exec) {
    Places(g, levels, x) && Consistent(x.record)
  }

  lemma LevelNodes(g: Graph, levels: seq<seq<NodeId>>, n: NodeId)
    requires Kahn.Layering(g, levels)
    ensures n in g.nodes <==> exists k :: 0 <= k < |levels| && n in levels[k]
  {
    Kahn.UptoMember(levels, |levels|, n);
  }

  lemma StartInv(g: Graph, levels: seq<seq<NodeId>>, x: Exec)
    requires Start(g, levels, x)
    ensures Inv(g, levels, x)
  {
    forall k, n | 0 <= k < |levels| && n in levels[k] ensures n in g.nodes {
      LevelNodes(g, levels, n);
    }
    var n :| n in g.nodes;
    LevelNodes(g, levels, n);
    assert x.record.nodes[n].state == Pending;
  }

  predicate OneNode(act: Action) {
    !act.Advance? && !act.SkipNode? && !act.Shutdown?
  }

  /** A goroutine's step seen by an arbitrary node. */
  lemma NodeKept(levels: seq<seq<NodeId>>, x: Exec, act: Action, now: Time, message: string, m: NodeId)
    requires Enabled(x, levels, act) && OneNode(act) && x.pcs.Keys == x.record.nodes.Keys && m in x.pcs
    requires NodeOk(x, m)
    ensures var y := Next(x, levels, act, now, message);
            && y.pcs.Keys == y.record.nodes.Keys == x.pcs.Keys && NodeOk(y, m)
            && (x.record.nodes[m].state == Failed && x.pcs[m] == NotSpawned ==> y.record.nodes[m].state == Failed)
            && y.phase == x.phase
  {
    var y := Next(x, levels, act, now, message);
    assert act.n in x.pcs;
    if m != act.n {
      assert y.pcs[m] == x.pcs[m] && y.record.nodes[m] == x.record.nodes[m] && y.submissions[m] == x.submissions[m];
    }
  }

  /** A goroutine's step seen by an arbitrary node of an arbitrary level. */
  lemma PlaceKept(g: Graph, levels: seq<seq<NodeId>>, x: Exec, act: Action, now: Time, message: string,
                  k: nat, m: NodeId)
    requires Enabled(x, levels, act) && OneNode(act) && Kahn.Layering(g, levels)
    requires k < |levels| && m in levels[k] && m in x.pcs && PlaceOk(x, k, m)
    ensures var y := Next(x, levels, act, now, message);
            m in y.pcs && PlaceOk(y, k, m)
  {
    if act.Spawn? && m == act.n {
      Kahn.OneLevel(g, levels, m, k, x.phase.level);
    }
  }

  /** And by those the skipping loop has passed. */
  lemma PassedKept(g: Graph, levels: seq<seq<NodeId>>, x: Exec, act: Action, now: Time, message: string)
    requires Places(g, levels, x) && Enabled(x, levels, act) && OneNode(act)
    ensures var y := Next(x, levels, act, now, message);
            forall l, j {:trigger Passed(y, l, j)} :: 0 <= l < |levels| && 0 <= j < |levels[l]| && Passed(y, l, j) ==>
              && levels[l][j] in g.nodes && levels[l][j] in y.record.nodes
              && y.record.nodes[levels[l][j]].state == Failed
  {
    var y := Next(x, levels, act, now, message);
    forall l, j | 0 <= l < |levels| && 0 <= j < |levels[l]| && Passed(y, l, j)
      ensures levels[l][j] in g.nodes && levels[l][j] in y.record.nodes
      ensures y.record.nodes[levels[l][j]].state == Failed
    {
      assert act.n in x.pcs && Passed(x, l, j) && levels[l][j] in levels[l] && PlaceOk(x, l, levels[l][j]);
      NodeKept(levels, x, act, now, message, levels[l][j]);
    }
  }

  lemma NodesKept(g: Graph, levels: seq<seq<NodeId>>, x: Exec, act: Action, now: Time, message: string)
    requires Places(g, levels, x) && Enabled(x, levels, act) && OneNode(act)
    ensures var y := Next(x, levels, act, now, message);
            && y.pcs.Keys == g.nodes.Keys == y.record.nodes.Keys && PhaseOk(y, levels)
            && forall m :: m in g.nodes ==> NodeOk(y, m)
  {
    var y := Next(x, levels, act, now, message);
    assert act.n in x.pcs;
    NodeKept(levels, x, act, now, message, act.n);
    forall m | m in g.nodes ensures NodeOk(y, m) {
      NodeKept(levels, x, act, now, message, m);
    }
  }

  lemma PlacesKept(g: Graph, levels: seq<seq<NodeId>>, x: Exec, act: Action, now: Time, message: string)
    requires Places(g, levels, x) && Enabled(x, levels, act) && OneNode(act) && Kahn.Layering(g, levels)
    ensures var y := Next(x, levels, act, now, message);
            forall k, m :: 0 <= k < |levels| && m in levels[k] ==> m in g.nodes && m in y.pcs && PlaceOk(y, k, m)
  {
    var y := Next(x, levels, act, now, message);
    forall k, m | 0 <= k < |levels| && m in levels[k] ensures m in g.nodes && m in y.pcs && PlaceOk(y, k, m) {
      assert PlaceOk(x, k, m);
      PlaceKept(g, levels, x, act, now, message, k, m);
    }
  }

  /** A step of one goroutine. */
  lemma NodeStep(g: Graph, levels: seq<seq<NodeId>>, x: Exec, act: Action, now: Time, message: string)
    requires Places(g, levels, x) && Enabled(x, levels, act) && OneNode(act) && Kahn.Layering(g, levels)
    ensures Places(g, levels, Next(x, levels, act, now, message))
  {
    NodesKept(g, levels, x, act, now, message);
    PlacesKept(g, levels, x, act, now, message);
    PassedKept(g, levels, x, act, now, message);
  }

  lemma NodeStepRecord(g: Graph, levels: seq<seq<NodeId>>, x: Exec, act: Action, now: Time, message: string)
    requires Enabled(x, levels, act) && OneNode(act)
    requires act.n in x.pcs && act.n in x.record.nodes && NodeOk(x, act.n) && Consistent(x.record)
    ensures Consistent(Next(x, levels, act, now, message).record)
  {
    match act
    case MarkRunning(n) => RunningConsistent(x.record, n, now);
    case MarkFailed(n) => FailedConsistent(x.record, n, Failure.Returned(message), now);
    case MarkCompleted(n) => CompletedConsistent(x.record, n, now);
    case _ =>
  }

  lemma AdvanceStep(g: Graph, levels: seq<seq<NodeId>>, x: Exec, now: Time, message: string)
    requires Places(g, levels, x) && Enabled(x, levels, Advance)
    ensures Places(g, levels, Next(x, levels, Advance, now, message))
  {
    var y := Next(x, levels, Advance, now, message);
    forall n | n in g.nodes ensures NodeOk(y, n) {
      assert NodeOk(x, n);
    }
    forall k, n | 0 <= k < |levels| && n in levels[k] ensures n in g.nodes && PlaceOk(y, k, n) {
      assert PlaceOk(x, k, n) && NodeOk(x, n);
    }
  }

  lemma SkipStep(g: Graph, levels: seq<seq<NodeId>>, x: Exec, now: Time, message: string)
    requires Places(g, levels, x) && Enabled(x, levels, SkipNode)
    ensures Places(g, levels, Next(x, levels, SkipNode, now, message))
  {
    var y := Next(x, levels, SkipNode, now, message);
    var k, i := x.phase.level, x.phase.index;
    if k < |levels| && i < |levels[k]| {
      assert levels[k][i] in levels[k] && PlaceOk(x, k, levels[k][i]);
    }
    forall n | n in g.nodes ensures NodeOk(y, n) {
      assert NodeOk(x, n);
    }
    forall l, n | 0 <= l < |levels| && n in levels[l] ensures n in g.nodes && PlaceOk(y, l, n) {
      assert PlaceOk(x, l, n);
    }
    forall l, j | 0 <= l < |levels| && 0 <= j < |levels[l]| && Passed(y, l, j)
      ensures levels[l][j] in g.nodes && y.record.nodes[levels[l][j]].state == Failed
    {
      assert levels[l][j] in levels[l];
      assert Passed(x, l, j) || (l == k && j == i);
    }
  }

  lemma SkipStepRecord(g: Graph, levels: seq<seq<NodeId>>, x: Exec, now: Time, message: string)
    requires Consistent(x.record) && Enabled(x, levels, SkipNode)
    ensures Consistent(Next(x, levels, SkipNode, now, message).record)
  {
    var k, i := x.phase.level, x.phase.index;
    if k < |levels| && i < |levels[k]| && levels[k][i] in x.record.nodes {
      FailedConsistent(x.record, levels[k][i], Skipped, now);
    }
  }

  lemma ShutdownStep(g: Graph, levels: seq<seq<NodeId>>, x: Exec, now: Time, message: string)
    requires Places(g, levels, x)
    ensures Places(g, levels, Next(x, levels, Shutdown, now, message))
  {
    var y := Next(x, levels, Shutdown, now, message);
    forall n | n in g.nodes ensures NodeOk(y, n) {
      assert NodeOk(x, n);
    }
    forall k, n | 0 <= k < |levels| && n in levels[k] ensures n in g.nodes && PlaceOk(y, k, n) {
      assert PlaceOk(x, k, n);
    }
    forall l, j | 0 <= l < |levels| && 0 <= j < |levels[l]| && Passed(y, l, j)
      ensures levels[l][j] in g.nodes && y.record.nodes[levels[l][j]].state == Failed
    {
      assert Passed(x, l, j);
    }
  }

  lemma NextInv(g: Graph, levels: seq<seq<NodeId>>, x: Exec, act: Action, now: Time, message: string)
    requires Inv(g, levels, x) && Enabled(x, levels, act) && Kahn.Layering(g, levels)
    ensures Inv(g, levels, Next(x, levels, act, now, message))
  {
    match act
    case Advance => AdvanceStep(g, levels, x, now, message);
    case SkipNode =>
      SkipStep(g, levels, x, now, message);
      SkipStepRecord(g, levels, x, now, message);
    case Shutdown => ShutdownStep(g, levels, x, now, message);
    case _ =>
      NodeStep(g, levels, x, act, now, message);
      NodeStepRecord(g, levels, x, act, now, message);
  }

  lemma EventInv(g: Graph, levels: seq<seq<NodeId>>, states: seq<Exec>, events: seq<Event>, i: nat)
    requires Run(g, levels, states, events) && 0 < i < |states| && Inv(g, levels, states[i - 1])
    ensures Inv(g, levels, states[i])
  {
    var e := events[i - 1];
    NextInv(g, levels, states[i - 1], e.act, e.now, e.message);
  }

  lemma {:induction false} RunInv(g: Graph, levels: seq<seq<NodeId>>, states: seq<Exec>, events: seq<Event>, i: nat)
    requires Run(g, levels, states, events) && i < |states|
    ensures Inv(g, levels, states[i])
  {
    if i == 0 {
      StartInv(g, levels, states[0]);
    } else {
      RunInv(g, levels, states, events, i - 1);
      EventInv(g, levels, states, events, i);
    }
  }

  // ---------------------------------------------------------------- what holds in every reachable state

  /** A node past its spawning has every predecessor COMPLETED. */
  lemma PredecessorsDone(g: Graph, levels: seq<seq<NodeId>>, x: Exec, n: NodeId, m: NodeId)
    requires Places(g, levels, x) && Kahn.Layering(g, levels) && n in g.nodes && x.pcs[n] != NotSpawned
    requires DependsOn(g, n, m)
    ensures m in x.record.nodes && x.record.nodes[m].state == Completed
  {
    LevelNodes(g, levels, n);
    var k :| 0 <= k < |levels| && n in levels[k];
    assert PlaceOk(x, k, n) && Kahn.LevelOk(g, levels, k);
    Kahn.UptoMember(levels, k, m);
    var j :| 0 <= j < k && m in levels[j];
    assert PlaceOk(x, j, m) && NodeOk(x, m);
  }

  /**
   A node that runs, or whose task was submitted, has every predecessor COMPLETED; no
   node is submitted twice; and a skipped node was never submitted.
   */
  lemma DependencySafety(g: Graph, levels: seq<seq<NodeId>>, states: seq<Exec>, events: seq<Event>, i: nat, n: NodeId)
    requires Run(g, levels, states, events) && i < |states| && n in g.nodes
    ensures var x := states[i];
            && n in x.record.nodes
            && (x.record.nodes[n].state == Running || n in x.submissions ==>
                  forall m :: DependsOn(g, n, m) ==> m in x.record.nodes && x.record.nodes[m].state == Completed)
            && x.submissions[n] <= 1
            && (x.record.nodes[n].error == Skipped ==> n !in x.submissions)
            && (x.record.nodes[n].state == Completed ==> n in x.submissions)
  {
    var x := states[i];
    RunInv(g, levels, states, events, i);
    assert NodeOk(x, n);
    forall m | DependsOn(g, n, m) && x.pcs[n] != NotSpawned
      ensures m in x.record.nodes && x.record.nodes[m].state == Completed
    {
      PredecessorsDone(g, levels, x, n, m);
    }
  }

  /**
   The execution is COMPLETED exactly when all nodes are, FAILED exactly when some node
   is, and RUNNING otherwise, whatever the goroutines are in the middle of.
   */
  lemma OutcomeIsExact(g: Graph, levels: seq<seq<NodeId>>, states: seq<Exec>, events: seq<Event>, i: nat)
    requires Run(g, levels, states, events) && i < |states|
    ensures var r := states[i].record;
            && (r.state == Completed <==> AllCompleted(r.nodes))
            && (r.state == Failed <==> exists n :: n in r.nodes && r.nodes[n].state == Failed)
            && r.state in {Running, Completed, Failed}
  {
    RunInv(g, levels, states, events, i);
  }

  /** What the invariant says once run has returned. */
  lemma FinishedNodes(g: Graph, levels: seq<seq<NodeId>>, x: Exec)
    requires Inv(g, levels, x) && Kahn.Layering(g, levels) && x.phase.Finished?
    ensures forall n :: n in g.nodes ==> n in x.record.nodes && x.record.nodes[n].state in {Completed, Failed}
    ensures forall n :: n in g.nodes ==>
              (x.record.nodes[n].state == Completed <==> n in x.submissions && n in x.pcs && x.pcs[n] == Done(true))
    ensures x.record.state == Completed || x.record.state == Failed
  {
    forall n | n in g.nodes
      ensures n in x.record.nodes && x.record.nodes[n].state in {Completed, Failed}
      ensures x.record.nodes[n].state == Completed <==> n in x.submissions && x.pcs[n] == Done(true)
    {
      LevelNodes(g, levels, n);
      var k :| 0 <= k < |levels| && n in levels[k];
      assert PlaceOk(x, k, n) && NodeOk(x, n);
      var j :| 0 <= j < |levels[k]| && levels[k][j] == n;
      assert k > Level(x) ==> Passed(x, k, j);
    }
  }

  /**
   When run returns no node is left PENDING or RUNNING, and the execution is COMPLETED
   exactly when every node was submitted and every submission returned nil.
   */
  lemma FinishedOutcome(g: Graph, levels: seq<seq<NodeId>>, states: seq<Exec>, events: seq<Event>, i: nat)
    requires Run(g, levels, states, events) && i < |states| && states[i].phase.Finished?
    ensures var x := states[i];
            && (forall n :: n in g.nodes ==> n in x.record.nodes && x.record.nodes[n].state in {Completed, Failed})
            && (x.record.state == Completed <==>
                  forall n :: n in g.nodes ==> n in x.submissions && n in x.pcs && x.pcs[n] == Done(true))
            && (x.record.state == Completed || x.record.state == Failed)
  {
    RunInv(g, levels, states, events, i);
    FinishedNodes(g, levels, states[i]);
  }

  /** Where a node ends COMPLETED, its SubmitTask was called and came back without an error, in that order. */
  lemma {:induction false} CompletedWasReturned(g: Graph, levels: seq<seq<NodeId>>, states: seq<Exec>,
                                                events: seq<Event>, i: nat, n: NodeId)
    returns (a: nat, b: nat)
    requires Run(g, levels, states, events) && i < |states| && n in g.nodes
    requires n in states[i].record.nodes && states[i].record.nodes[n].state == Completed
    ensures a < b < i && events[a].act == Submit(n) && events[b].act == Return(n, true)
  {
    RunInv(g, levels, states, events, i);
    assert NodeOk(states[i], n);
    b := LastChange(g, levels, states, events, i, n, Done(true));
    b := LastChange(g, levels, states, events, b, n, NodePc.Returned(true));
    a := LastChange(g, levels, states, events, b, n, Submitted);
  }

  /** Steps keep the set of nodes. */
  lemma {:induction false} RunKeys(g: Graph, levels: seq<seq<NodeId>>, states: seq<Exec>, events: seq<Event>, i: nat)
    requires Run(g, levels, states, events) && i < |states|
    ensures states[i].pcs.Keys == g.nodes.Keys
  {
    if i > 0 {
      RunKeys(g, levels, states, events, i - 1);
      var e := events[i - 1];
      assert states[i] == Next(states[i - 1], levels, e.act, e.now, e.message);
    }
  }

  /** What a step that moved a goroutine to a place was. */
  lemma Moved(levels: seq<seq<NodeId>>, x: Exec, e: Event, n: NodeId)
    requires Enabled(x, levels, e.act) && n in x.pcs
    ensures var y := Next(x, levels, e.act, e.now, e.message);
            n in y.pcs && (x.pcs[n] != y.pcs[n] ==>
              && (y.pcs[n] == Done(true) ==> x.pcs[n] == NodePc.Returned(true))
              && (y.pcs[n].Returned? ==> e.act == Return(n, y.pcs[n].ok) && x.pcs[n] == Submitted)
              && (y.pcs[n] == Submitted ==> e.act == Submit(n)))
  {
  }

  /** The step that put a goroutine where it is, and where it was before. */
  lemma {:induction false} LastChange(g: Graph, levels: seq<seq<NodeId>>, states: seq<Exec>, events: seq<Event>,
                                      i: nat, n: NodeId, pc: NodePc) returns (a: nat)
    requires Run(g, levels, states, events) && i < |states| && n in g.nodes && pc != NotSpawned
    requires n in states[i].pcs && states[i].pcs[n] == pc
    ensures a < i && n in states[a].pcs && states[a].pcs[n] != pc
    ensures n in states[a + 1].pcs && states[a + 1].pcs[n] == pc
    ensures pc == Done(true) ==> states[a].pcs[n] == NodePc.Returned(true)
    ensures pc.Returned? ==> events[a].act == Return(n, pc.ok) && states[a].pcs[n] == Submitted
    ensures pc == Submitted ==> events[a].act == Submit(n)
  {
    assert i > 0;
    a := i - 1;
    RunKeys(g, levels, states, events, a);
    Moved(levels, states[a], events[a], n);
    if states[a].pcs[n] == pc {
      a := LastChange(g, levels, states, events, a, n, pc);
    }
  }

  // ---------------------------------------------------------------- fail-fast

  /** Once cancelled, a run stays cancelled and its goroutines stay on their level. */
  lemma {:induction false} CancelledStays(g: Graph, levels: seq<seq<NodeId>>, states: seq<Exec>, events: seq<Event>,
                                          m: nat, n: nat)
    requires Run(g, levels, states, events) && m <= n < |states| && states[m].cancelled
    ensures states[n].cancelled && Level(states[n]) == Level(states[m])
  {
    if m < n {
      CancelledStays(g, levels, states, events, m, n - 1);
      var e := events[n - 1];
      assert states[n] == Next(states[n - 1], levels, e.act, e.now, e.message);
    }
  }

  lemma LaterNodeRests(g: Graph, levels: seq<seq<NodeId>>, x: Exec, k: nat, n: NodeId)
    requires Places(g, levels, x) && Kahn.Layering(g, levels) && Level(x) < k < |levels| && n in levels[k]
    ensures n !in x.submissions
    ensures x.phase.Finished? ==>
              n in x.record.nodes && x.record.nodes[n].state == Failed && x.record.nodes[n].error == Skipped
  {
    assert PlaceOk(x, k, n) && NodeOk(x, n);
    var j :| 0 <= j < |levels[k]| && levels[k][j] == n;
    assert x.phase.Finished? ==> Passed(x, k, j);
  }

  /**
   Fail-fast: after a cancellation no node of a later level is ever submitted, and when
   run returns each of them is FAILED as skipped.
   */
  lemma CancelledRunStops(g: Graph, levels: seq<seq<NodeId>>, states: seq<Exec>, events: seq<Event>,
                          m: nat, i: nat, k: nat, n: NodeId)
    requires Run(g, levels, states, events) && m <= i < |states| && states[m].cancelled
    requires Level(states[m]) < k < |levels| && n in levels[k]
    ensures n !in states[i].submissions
    ensures states[i].phase.Finished? ==>
              && n in states[i].record.nodes && states[i].record.nodes[n].state == Failed
              && states[i].record.nodes[n].error == Skipped
  {
    CancelledStays(g, levels, states, events, m, i);
    RunInv(g, levels, states, events, i);
    LaterNodeRests(g, levels, states[i], k, n);
  }

  /** And nothing else cancels a run: a failed submission did, or the shutdown of the server. */
  lemma {:induction false} CancelledHasCause(g: Graph, levels: seq<seq<NodeId>>, states: seq<Exec>,
                                             events: seq<Event>, i: nat)
    returns (j: nat)
    requires Run(g, levels, states, events) && i < |states| && states[i].cancelled
    ensures j < i && (events[j].act.Shutdown? || (events[j].act.CancelRun? && events[j].act.n in states[j].record.nodes
                                                  && states[j].record.nodes[events[j].act.n].state == Failed))
  {
    assert i > 0;
    var e := events[i - 1];
    assert states[i] == Next(states[i - 1], levels, e.act, e.now, e.message);
    if states[i - 1].cancelled {
      j := CancelledHasCause(g, levels, states, events, i - 1);
    } else {
      j := i - 1;
      RunInv(g, levels, states, events, j);
      if e.act.CancelRun? {
        assert NodeOk(states[j], e.act.n);
      }
    }
  }

  /** What a step does to the outcome of one node. */
  lemma ErrorMoves(g: Graph, levels: seq<seq<NodeId>>, x: Exec, e: Event, n: NodeId, message: string)
    requires Places(g, levels, x) && Enabled(x, levels, e.act) && n in g.nodes
    requires var y := Next(x, levels, e.act, e.now, e.message);
             n in y.record.nodes && y.record.nodes[n].error == Failure.Returned(message)
    ensures var y := Next(x, levels, e.act, e.now, e.message);
            || y.record.nodes[n] == x.record.nodes[n]
            || (e.act == MarkFailed(n) && e.message == message && y.record.nodes[n].completedAt == Some(e.now))
  {
    assert NodeOk(x, n);
    if e.act.SkipNode? && x.phase.level < |levels| && x.phase.index < |levels[x.phase.level]| {
      assert levels[x.phase.level][x.phase.index] in levels[x.phase.level];
    }
  }

  lemma NoErrorYet(g: Graph, levels: seq<seq<NodeId>>, states: seq<Exec>, events: seq<Event>, i: nat, n: NodeId)
    requires Run(g, levels, states, events) && i < |states| && n in states[i].record.nodes
    requires states[i].record.nodes[n].error != Nothing
    ensures i > 0
  {
  }

  lemma ErrorMoved(g: Graph, levels: seq<seq<NodeId>>, states: seq<Exec>, events: seq<Event>, i: nat, n: NodeId,
                   message: string)
    requires Run(g, levels, states, events) && 0 < i < |states| && n in g.nodes && n in states[i].record.nodes
    requires states[i].record.nodes[n].error == Failure.Returned(message) && Inv(g, levels, states[i - 1])
    ensures n in states[i - 1].record.nodes && n in states[i - 1].pcs
    ensures states[i].record.nodes[n] != states[i - 1].record.nodes[n] ==>
              && events[i - 1].act == MarkFailed(n) && states[i - 1].pcs[n] == NodePc.Returned(false)
              && events[i - 1].message == message
              && states[i].record.nodes[n].completedAt == Some(events[i - 1].now)
  {
    var e := events[i - 1];
    assert Enabled(states[i - 1], levels, e.act);
    ErrorMoves(g, levels, states[i - 1], e, n, message);
  }

  /** An error a node reports is the one its own submission came back with, at the time it was marked. */
  lemma {:induction false} ErrorWasReturned(g: Graph, levels: seq<seq<NodeId>>, states: seq<Exec>,
                                            events: seq<Event>, i: nat, n: NodeId, message: string)
    returns (a: nat, b: nat)
    requires Run(g, levels, states, events) && i < |states| && n in g.nodes && n in states[i].record.nodes
    requires states[i].record.nodes[n].error == Failure.Returned(message)
    ensures a < b < i && events[a].act == Return(n, false) && events[b].act == MarkFailed(n)
    ensures events[b].message == message && states[i].record.nodes[n].completedAt == Some(events[b].now)
  {
    NoErrorYet(g, levels, states, events, i, n);
    RunInv(g, levels, states, events, i - 1);
    ErrorMoved(g, levels, states, events, i, n, message);
    if states[i].record.nodes[n] == states[i - 1].record.nodes[n] {
      a, b := ErrorWasReturned(g, levels, states, events, i - 1, n, message);
    } else {
      b := i - 1;
      a := LastChange(g, levels, states, events, b, n, NodePc.Returned(false));
    }
  }
}
