/**
 What an empty task id does.  The task RPC refuses it, but a DAG node may carry
 one: an agent bound to it looks as if it had no task, so completeAgent believes
 whatever id the agent claims.  Conservation, signals and completions are exact
 precisely where no empty id is involved; each has an `if and only if` here.
 */
module EmptyIds {
  import opened Types
  import opened DagGraph
  import opened EndToEnd
  import opened NodeCompletions
  import Agent
  import Status
  import Kahn = TopologicalSort
  import Sup = SupervisorSystem
  import Reg = CompletionRuns
  import Completion
  import Ex = ExecutorRuns
  import opened Conservation
  import opened CompletionSignals
  import opened SupervisorPaths
  import opened SupervisorScripts

  /** Every task submitted so far carries an allowed id. */
  ghost predicate IdsIn(submitted: multiset<Task>, allowed: iset<TaskId>) {
    forall x: Task :: x in submitted ==> x.id in allowed
  }

  // ---------------------------------------------------------------- the supervisor

  const ORIGIN: Sup.State := Resting(Unregistered([]), Sup.Ready, NO_HISTORY)

  function Once(t: Task): Sup.History {
    NO_HISTORY.(submitted := multiset{t})
  }

  /** A lone task is submitted, worked on and delivered under a claimed id. */
  lemma LoneTask(t: Task, claimed: TaskId)
    ensures Reachable(Signalling(Record(Agent.Reporting, t.id, t.priority), claimed, [], Once(t)), false)
  {
    Here(ORIGIN, false);
    var s := Resting(Unregistered([t]), Sup.Ready, Once(t));
    On(ORIGIN, ORIGIN, s, Sup.Submitter(t), false);
    assert [t] + [] == [t];
    WorksThrough(ORIGIN, t, [], claimed, Once(t));
    FromInit(ORIGIN, Signalling(Record(Agent.Reporting, t.id, t.priority), claimed, [], Once(t)), false);
  }

  /** For which tasks conservation holds over all failure-free runs: exactly those with a non-empty id. */
  lemma ConservedIff(x: Task)
    ensures (forall s :: Reachable(s, false) ==> Conserved(s, x)) <==> x.id != ""
  {
    if x.id == "" {
      var s := Signalling(Record(Agent.Reporting, "", x.priority), "", [], Once(x));
      LoneTask(x, "");
      assert s.hist.submitted[x] == 1 && Holders(s, x) == {};
      assert Reachable(s, false) && !Conserved(s, x);
    } else {
      forall s | Reachable(s, false) ensures Conserved(s, x) {
        var states, actors :| Sup.Run(states, actors, false) && Ends(states, s);
        TaskConservation(states, actors, |states| - 1);
      }
    }
  }

  /** For which sets of ids signals stand for deliveries over all failure-free runs: those without the empty id. */
  lemma SignalsExactIff(allowed: iset<TaskId>)
    ensures (forall s :: Reachable(s, false) && IdsIn(s.hist.submitted, allowed) ==> SignalsExact(s))
            <==> "" !in allowed
  {
    if "" in allowed {
      var s := MisleadingSignal();
      assert IdsIn(s.hist.submitted, allowed);
      assert "b" in s.hist.signalled;
      assert !SignalsExact(s);
    } else {
      forall s | Reachable(s, false) && IdsIn(s.hist.submitted, allowed) ensures SignalsExact(s) {
        var states, actors :| Sup.Run(states, actors, false) && Ends(states, s);
        SignalsAreDeliveries(states, actors, |states| - 1);
      }
    }
  }

  /** The only task has an empty id, yet "b" is signalled. */
  lemma MisleadingSignal() returns (s: Sup.State)
    ensures Reachable(s, false) && s.hist.submitted == multiset{Task("", 1.0)}
    ensures "b" in s.hist.signalled && s.hist.delivered == multiset{}
  {
    var t := Task("", 1.0);
    LoneTask(t, "b");
    var s0 := Signalling(Record(Agent.Reporting, "", 1.0), "b", [], Once(t));
    s := s0.(calls := map[0 := Sup.Done(A, "b", Sup.DClear)], hist := s0.hist.(signalled := multiset{"b"}));
    assert Sup.DoneStep(s0, s, 0, s0.calls[0], false);
    ReachableOn(s0, s, Sup.Caller(0), false);
  }

  // ---------------------------------------------------------------- runs of the whole system

  ghost predicate WorldEnds(ws: seq<World>, w: World) {
    ws != [] && ws[|ws| - 1] == w
  }

  ghost predicate WorldReachable(g: Graph, levels: seq<seq<NodeId>>, w: World) {
    exists ws, ms :: Run(g, levels, ws, ms, false) && WorldEnds(ws, w)
  }

  lemma WorldOn(g: Graph, levels: seq<seq<NodeId>>, w: World, w': World, m: Move)
    requires WorldReachable(g, levels, w) && Tasked(g) && Step(g, levels, w, w', m, false)
    ensures WorldReachable(g, levels, w')
  {
    var ws, ms :| Run(g, levels, ws, ms, false) && WorldEnds(ws, w);
    var ws', ms' := ws + [w'], ms + [m];
    forall i | 0 <= i < |ms'| ensures Step(g, levels, ws'[i], ws'[i + 1], ms'[i], false) {
      if i < |ms| {
        assert ws'[i] == ws[i] && ws'[i + 1] == ws[i + 1] && ms'[i] == ms[i];
      }
    }
    assert ws'[0] == ws[0];
    assert Run(g, levels, ws', ms', false) && WorldEnds(ws', w');
  }

  /** What the supervisor can do alone it can do in the whole system. */
  lemma {:induction false} PathLifts(g: Graph, levels: seq<seq<NodeId>>, w: World, states: seq<Sup.State>,
                                     actors: seq<Sup.Actor>, n: nat)
    requires Tasked(g) && WorldReachable(g, levels, w) && Path(states, actors, false) && n < |states|
    requires states[0] == w.sup
    ensures WorldReachable(g, levels, w.(sup := states[n]))
  {
    if n == 0 {
      assert w.(sup := states[0]) == w;
    } else {
      PathLifts(g, levels, w, states, actors, n - 1);
      assert Sup.Step(states[n - 1], states[n], actors[n - 1], false) && Quiet(states[n - 1], actors[n - 1]);
      WorldOn(g, levels, w.(sup := states[n - 1]), w.(sup := states[n]), Supervise(actors[n - 1]));
    }
  }

  lemma SupervisorGoes(g: Graph, levels: seq<seq<NodeId>>, w: World, s: Sup.State)
    requires Tasked(g) && WorldReachable(g, levels, w) && Leads(w.sup, s, false)
    ensures WorldReachable(g, levels, w.(sup := s))
  {
    var states, actors :| Path(states, actors, false) && Joins(states, w.sup, s);
    PathLifts(g, levels, w, states, actors, |states| - 1);
  }

  // ---------------------------------------------------------------- a DAG with an empty id

  function TaskNode(n: NodeId, id: TaskId, priority: real): NodeSpec {
    NodeSpec(n, Some(TaskSpec(id, "", "", priority)), [])
  }

  /** Two independent nodes: the task of "A" has no id, that of "B" the id `b`. */
  function TwoNodes(b: TaskId): Graph {
    Graph("dag", map["A" := TaskNode("A", "", 1.0), "B" := TaskNode("B", b, 2.0)],
          map["A" := [], "B" := []], map["A" := [], "B" := []], ["A", "B"])
  }

  const LEVELS: seq<seq<NodeId>> := [["A", "B"]]

  lemma TwoNodesFormed(b: TaskId)
    ensures WellFormed(TwoNodes(b)) && TwoNodes(b).nodes.Keys == {"A", "B"} && Tasked(TwoNodes(b))
  {
    var g := TwoNodes(b);
    forall n, m ensures Entries(g.predecessors, n, m) == Entries(g.successors, m, n) {
      assert Entries(g.predecessors, n, m) == 0;
    }
  }

  lemma TwoNodesLayered(b: TaskId)
    ensures Kahn.Layering(TwoNodes(b), LEVELS)
  {
    TwoNodesFormed(b);
    var g, level := TwoNodes(b), ["A", "B"];
    assert Kahn.Upto(LEVELS, 0) == {};
    assert level[0] == "A" && level[1] == "B";
    assert forall n :: n in level <==> n in {"A", "B"};
    assert Kahn.LevelOk(g, LEVELS, 0);
    assert Kahn.Members(level) == g.nodes.Keys;
    assert Kahn.Upto(LEVELS, 1) == Kahn.Upto(LEVELS, 0) + Kahn.Members(level);
  }

  function FreshRun(b: TaskId): Ex.Exec {
    Ex.Exec(Ex.Fanning(0), map["A" := Ex.NotSpawned, "B" := Ex.NotSpawned], false,
            Status.Created("dag", {"A", "B"}, 0), multiset{})
  }

  lemma Starts(b: TaskId) returns (w: World)
    ensures Tasked(TwoNodes(b)) && WorldReachable(TwoNodes(b), LEVELS, w)
    ensures w == World(ORIGIN, Reg.State(Completion.EMPTY, 0, 0, map[], map[], {}), FreshRun(b), map[])
  {
    TwoNodesFormed(b);
    TwoNodesLayered(b);
    var g := TwoNodes(b);
    w := World(ORIGIN, Reg.State(Completion.EMPTY, 0, 0, map[], map[], {}), FreshRun(b), map[]);
    assert (map n | n in g.nodes :: Ex.NotSpawned) == w.ex.pcs;
    assert w.ex.record == Status.Created(g.dagId, g.nodes.Keys, 0);
    assert Ex.Start(g, LEVELS, w.ex);
    assert Run(g, LEVELS, [w], [], false) && WorldEnds([w], w);
  }

  /** An executor step that is neither a submission nor a return. */
  lemma Executes(b: TaskId, w: World, act: Ex.Action) returns (w': World)
    requires Tasked(TwoNodes(b)) && WorldReachable(TwoNodes(b), LEVELS, w)
    requires Ex.Enabled(w.ex, LEVELS, act) && !act.Return? && !act.Submit?
    ensures WorldReachable(TwoNodes(b), LEVELS, w') && w' == w.(ex := Ex.Next(w.ex, LEVELS, act, 0, ""))
  {
    w' := w.(ex := Ex.Next(w.ex, LEVELS, act, 0, ""));
    WorldOn(TwoNodes(b), LEVELS, w, w', Execute(act, 0, ""));
  }

  /** A node's goroutine is spawned and marks the node RUNNING. */
  lemma Spawns(b: TaskId, w: World, n: NodeId) returns (w': World)
    requires Tasked(TwoNodes(b)) && WorldReachable(TwoNodes(b), LEVELS, w)
    requires n in LEVELS[0] && n in w.ex.pcs && w.ex.pcs[n] == Ex.NotSpawned && w.ex.phase == Ex.Fanning(0)
    ensures WorldReachable(TwoNodes(b), LEVELS, w')
    ensures w' == w.(ex := w'.ex) && w'.ex.pcs == w.ex.pcs[n := Ex.Marked] && w'.ex.phase == Ex.Fanning(0)
  {
    var w1 := Executes(b, w, Ex.Spawn(n));
    assert w1.ex.pcs == w.ex.pcs[n := Ex.Spawned] && w1.ex.phase == w.ex.phase;
    w' := Executes(b, w1, Ex.MarkRunning(n));
    assert w'.ex.pcs == w1.ex.pcs[n := Ex.Marked] && w'.ex.phase == w1.ex.phase;
  }

  /** Then it calls SubmitTask. */
  lemma Submits(b: TaskId, w: World, n: NodeId) returns (w': World)
    requires Tasked(TwoNodes(b)) && WorldReachable(TwoNodes(b), LEVELS, w)
    requires n in LEVELS[0] && n in w.ex.pcs && w.ex.pcs[n] == Ex.NotSpawned && w.ex.phase == Ex.Fanning(0)
    ensures WorldReachable(TwoNodes(b), LEVELS, w')
    ensures w' == w.(ex := w'.ex, subs := w.subs[n := Enqueueing])
    ensures w'.ex.pcs == w.ex.pcs[n := Ex.Submitted] && w'.ex.phase == Ex.Fanning(0)
  {
    var w1 := Spawns(b, w, n);
    w' := w1.(ex := Ex.Next(w1.ex, LEVELS, Ex.Submit(n), 0, ""), subs := w1.subs[n := Enqueueing]);
    WorldOn(TwoNodes(b), LEVELS, w1, w', Execute(Ex.Submit(n), 0, ""));
  }

  function Both(b: TaskId): Sup.History {
    NO_HISTORY.(submitted := multiset{Task("", 1.0), Task(b, 2.0)})
  }

  /** Both nodes have called SubmitTask. */
  lemma BothSubmitted(b: TaskId) returns (w: World)
    ensures Tasked(TwoNodes(b)) && WorldReachable(TwoNodes(b), LEVELS, w)
    ensures w == World(ORIGIN, Reg.State(Completion.EMPTY, 0, 0, map[], map[], {}), w.ex,
                       map["A" := Enqueueing, "B" := Enqueueing])
    ensures "B" in w.ex.pcs && w.ex.pcs["B"] == Ex.Submitted && w.ex.phase == Ex.Fanning(0)
  {
    var w0 := Starts(b);
    assert LEVELS[0][0] == "A" && LEVELS[0][1] == "B";
    var w1 := Submits(b, w0, "A");
    w := Submits(b, w1, "B");
  }

  /** The empty store takes the task of node "A", and then that of node "B". */
  lemma QueueTakes(b: TaskId)
    ensures Sup.SubmitStep(ORIGIN, Resting(Unregistered([Task("", 1.0)]), Sup.Ready, Once(Task("", 1.0))),
                           Task("", 1.0))
    ensures Sup.SubmitStep(Resting(Unregistered([Task("", 1.0)]), Sup.Ready, Once(Task("", 1.0))),
                           Resting(Unregistered([Task("", 1.0), Task(b, 2.0)]), Sup.Ready, Both(b)), Task(b, 2.0))
  {
    assert [Task("", 1.0), Task(b, 2.0)] == [Task("", 1.0)] + [Task(b, 2.0)];
  }

  /** The task of node "A" is queued. */
  lemma FirstQueued(b: TaskId) returns (w: World)
    ensures Tasked(TwoNodes(b)) && WorldReachable(TwoNodes(b), LEVELS, w)
    ensures w == World(Resting(Unregistered([Task("", 1.0)]), Sup.Ready, Once(Task("", 1.0))),
                       Reg.State(Completion.EMPTY, 0, 0, map[], map[], {}), w.ex,
                       map["A" := Entering, "B" := Enqueueing])
    ensures "B" in w.ex.pcs && w.ex.pcs["B"] == Ex.Submitted
  {
    var w2 := BothSubmitted(b);
    var t := Task("", 1.0);
    w := w2.(sup := Resting(Unregistered([t]), Sup.Ready, Once(t)), subs := w2.subs["A" := Entering]);
    QueueTakes(b);
    Enqueues(b, w2, w, "A", t);
  }

  /** Both nodes' tasks are queued. */
  lemma BothQueued(b: TaskId) returns (w: World)
    ensures Tasked(TwoNodes(b)) && WorldReachable(TwoNodes(b), LEVELS, w)
    ensures w.sup == Resting(Unregistered([Task("", 1.0), Task(b, 2.0)]), Sup.Ready, Both(b))
    ensures w.reg == Reg.State(Completion.EMPTY, 0, 0, map[], map[], {})
    ensures w.subs == map["A" := Entering, "B" := Entering]
    ensures "B" in w.ex.pcs && w.ex.pcs["B"] == Ex.Submitted
  {
    var w3 := FirstQueued(b);
    var tA, tB := Task("", 1.0), Task(b, 2.0);
    QueueTakes(b);
    w := w3.(sup := Resting(Unregistered([tA, tB]), Sup.Ready, Both(b)), subs := w3.subs["B" := Entering]);
    Enqueues(b, w3, w, "B", tB);
  }

  /** A submitter's EnqueueTask. */
  lemma Enqueues(b: TaskId, w: World, w': World, n: NodeId, t: Task)
    requires Tasked(TwoNodes(b)) && WorldReachable(TwoNodes(b), LEVELS, w)
    requires n in w.subs && w.subs[n] == Enqueueing && n in TwoNodes(b).nodes && TaskOf(TwoNodes(b), n) == t
    requires Sup.SubmitStep(w.sup, w'.sup, t) && w' == w.(sup := w'.sup, subs := w.subs[n := Entering])
    ensures WorldReachable(TwoNodes(b), LEVELS, w')
  {
    WorldOn(TwoNodes(b), LEVELS, w, w', Enqueue(n, true));
  }

  /** The wait of node "B" enters. */
  lemma WaitEnters(b: TaskId) returns (w: World)
    requires b != ""
    ensures Tasked(TwoNodes(b)) && WorldReachable(TwoNodes(b), LEVELS, w)
    ensures w.sup == Resting(Unregistered([Task("", 1.0), Task(b, 2.0)]), Sup.Ready, Both(b))
    ensures w.reg.reg == Completion.EMPTY && w.reg.waits == map[0 := Reg.Entering(b)]
    ensures w.subs == map["A" := Entering, "B" := Waiting(0)]
    ensures "B" in w.ex.pcs && w.ex.pcs["B"] == Ex.Submitted
  {
    var w0 := BothQueued(b);
    assert TaskOf(TwoNodes(b), "B").id == b;
    w := w0.(reg := Reg.Next(w0.reg, Reg.Enter(0, b)), subs := w0.subs["B" := Waiting(0)]);
    WorldOn(TwoNodes(b), LEVELS, w0, w, Enter("B", 0));
  }

  /** And is blocked on channel 0. */
  lemma Waits(b: TaskId) returns (w: World)
    requires b != ""
    ensures Tasked(TwoNodes(b)) && WorldReachable(TwoNodes(b), LEVELS, w)
    ensures w.sup == Resting(Unregistered([Task("", 1.0), Task(b, 2.0)]), Sup.Ready, Both(b))
    ensures w.reg.waits == map[0 := Reg.Blocked(b, 0)] && w.reg.reg.waiters == map[b := 0] && w.reg.reg.cleaned == map[]
    ensures w.subs == map["A" := Entering, "B" := Waiting(0)]
    ensures "B" in w.ex.pcs && w.ex.pcs["B"] == Ex.Submitted
  {
    var w0 := WaitEnters(b);
    w := w0.(reg := Reg.Next(w0.reg, Reg.Claim(0)));
    WorldOn(TwoNodes(b), LEVELS, w0, w, Registry(Reg.Claim(0)));
  }

  /** The agent that works on the task without an id delivers it and claims `b`. */
  lemma Claims(b: TaskId) returns (w: World)
    requires b != ""
    ensures Tasked(TwoNodes(b)) && WorldReachable(TwoNodes(b), LEVELS, w)
    ensures w.sup == Signalling(Record(Agent.Reporting, "", 1.0), b, [Task(b, 2.0)], Both(b))
    ensures w.reg.waits == map[0 := Reg.Blocked(b, 0)] && w.reg.reg.waiters == map[b := 0] && w.reg.reg.cleaned == map[]
    ensures w.subs == map["A" := Entering, "B" := Waiting(0)]
    ensures "B" in w.ex.pcs && w.ex.pcs["B"] == Ex.Submitted
  {
    var w0 := Waits(b);
    var tA, tB := Task("", 1.0), Task(b, 2.0);
    Here(w0.sup, false);
    assert [tA] + [tB] == [tA, tB];
    WorksThrough(w0.sup, tA, [tB], b, Both(b));
    var s := Signalling(Record(Agent.Reporting, "", 1.0), b, [tB], Both(b));
    SupervisorGoes(TwoNodes(b), LEVELS, w0, s);
    w := w0.(sup := s);
  }

  /** So `b` is signalled. */
  lemma Signals(b: TaskId) returns (w: World)
    requires b != ""
    ensures Tasked(TwoNodes(b)) && WorldReachable(TwoNodes(b), LEVELS, w)
    ensures w.sup.sh.queue == [Task(b, 2.0)] && w.sup.hist.delivered == multiset{}
    ensures w.sup.hist.submitted == Both(b).submitted
    ensures w.reg.waits == map[0 := Reg.Blocked(b, 0)] && 0 in w.reg.reg.closed
    ensures w.subs == map["A" := Entering, "B" := Waiting(0)]
    ensures "B" in w.ex.pcs && w.ex.pcs["B"] == Ex.Submitted
  {
    var w1 := Claims(b);
    var s := w1.sup;
    var s' := s.(calls := map[0 := Sup.Done(A, b, Sup.DClear)], hist := s.hist.(signalled := multiset{b}));
    assert Sup.DoneStep(s, s', 0, s.calls[0], false);
    w := w1.(sup := s', reg := Reg.Next(w1.reg, Reg.Complete(b)));
    WorldOn(TwoNodes(b), LEVELS, w1, w, Signal(0));
  }

  /** The wait of "B" wakes up, and its SubmitTask ends without an error. */
  lemma Released(b: TaskId) returns (w: World)
    requires b != ""
    ensures Tasked(TwoNodes(b)) && WorldReachable(TwoNodes(b), LEVELS, w)
    ensures w.sup.sh.queue == [Task(b, 2.0)] && w.sup.hist.delivered == multiset{}
    ensures w.sup.hist.submitted == Both(b).submitted
    ensures "B" in w.subs && w.subs["B"] == Ended(true) && "B" in w.ex.pcs && w.ex.pcs["B"] == Ex.Submitted
  {
    var g := TwoNodes(b);
    var w0 := Signals(b);
    var w1 := w0.(reg := Reg.Next(w0.reg, Reg.Wake(0)));
    WorldOn(g, LEVELS, w0, w1, Registry(Reg.Wake(0)));
    w := w1.(reg := Reg.Next(w1.reg, Reg.Cleanup(0)), subs := w1.subs["B" := Ended(true)]);
    WorldOn(g, LEVELS, w1, w, Cleanup("B"));
  }

  /**
   A failure-free run with distinct ids in which node "B" is COMPLETED while its task is
   still queued and was never delivered.
   */
  lemma CompletedUndelivered(b: TaskId) returns (w: World)
    requires b != ""
    ensures Tasked(TwoNodes(b)) && WorldReachable(TwoNodes(b), LEVELS, w) && NodeCompleted(w, "B")
    ensures TaskOf(TwoNodes(b), "B") in w.sup.sh.queue && w.sup.hist.delivered == multiset{}
    ensures w.sup.hist.submitted == multiset{Task("", 1.0), Task(b, 2.0)}
  {
    var w2 := Released(b);
    var w3 := w2.(ex := Ex.Next(w2.ex, LEVELS, Ex.Return("B", true), 0, ""));
    WorldOn(TwoNodes(b), LEVELS, w2, w3, Finish("B", 0, ""));
    assert "B" in w3.ex.pcs && w3.ex.pcs["B"] == Ex.NodePc.Returned(true);
    w := Executes(b, w3, Ex.MarkCompleted("B"));
    DoneIsCompleted(TwoNodes(b), w, "B");
  }

  lemma DoneTracked(g: Graph, w: World, n: NodeId)
    requires Ex.Places(g, LEVELS, w.ex) && n in g.nodes && n in w.ex.pcs && w.ex.pcs[n] == Ex.Done(true)
    ensures NodeCompleted(w, n)
  {
    assert Ex.NodeOk(w.ex, n);
  }

  lemma DoneIsCompleted(g: Graph, w: World, n: NodeId)
    requires WorldReachable(g, LEVELS, w) && n in g.nodes && n in w.ex.pcs && w.ex.pcs[n] == Ex.Done(true)
    ensures NodeCompleted(w, n)
  {
    var ws, ms :| Run(g, LEVELS, ws, ms, false) && WorldEnds(ws, w);
    RunExecutor(g, LEVELS, ws, ms, false, |ws| - 1);
    DoneTracked(g, w, n);
  }

  // ---------------------------------------------------------------- when completions are exact

  /** A node is COMPLETED although its task was not delivered once, with distinct ids and only allowed ones. */
  ghost predicate Misled(allowed: iset<TaskId>, g: Graph, levels: seq<seq<NodeId>>, w: World, n: NodeId) {
    && Tasked(g) && n in g.nodes && WorldReachable(g, levels, w) && NodeCompleted(w, n)
    && DistinctIds(w.sup.hist.submitted) && IdsIn(w.sup.hist.submitted, allowed)
    && w.sup.hist.delivered[TaskOf(g, n)] != 1
  }

  lemma MisledNeedsEmpty(allowed: iset<TaskId>, g: Graph, levels: seq<seq<NodeId>>, w: World, n: NodeId)
    requires Misled(allowed, g, levels, w, n)
    ensures "" in allowed && TaskOf(g, n).id != "" && TaskOf(g, n).id in allowed
  {
    var ws, ms :| Run(g, levels, ws, ms, false) && WorldEnds(ws, w);
    CompletedWasSignalled(g, levels, ws, ms, false, |ws| - 1, n);
    if "" !in allowed {
      CompletedWasDelivered(g, levels, ws, ms, |ws| - 1, n);
    }
  }

  lemma MisledByEmpty(allowed: iset<TaskId>, b: TaskId) returns (w: World)
    requires "" in allowed && b in allowed && b != ""
    ensures Misled(allowed, TwoNodes(b), LEVELS, w, "B")
  {
    w := CompletedUndelivered(b);
  }

  /**
   For which sets of ids a COMPLETED node's task was always delivered exactly once: those
   that do not hold the empty id together with another one.
   */
  lemma CompletionsExactIff(allowed: iset<TaskId>)
    ensures (exists g, levels, w, n :: Misled(allowed, g, levels, w, n))
            <==> "" in allowed && exists b :: b in allowed && b != ""
  {
    if "" in allowed && exists b :: b in allowed && b != "" {
      var b :| b in allowed && b != "";
      var w := MisledByEmpty(allowed, b);
    }
    forall g, levels, w, n | Misled(allowed, g, levels, w, n)
      ensures "" in allowed && exists b :: b in allowed && b != ""
    {
      MisledNeedsEmpty(allowed, g, levels, w, n);
    }
  }
}
