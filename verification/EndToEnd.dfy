/**
 The whole path of a DAG node: the executor calls SubmitTask, the blocking
 submitter enqueues the node's task and waits, the supervisor binds it to an
 agent, and completeAgent's signal releases the wait.  The supervisor, the
 completion registry, the executor and the submitters move concurrently; `faulty`
 allows the supervisor's store calls to fail without effect.  Each step is one of a
 single component, so the components' own invariants carry over, and `Join` ties
 their states together.
 */
module EndToEnd {
  import opened Types
  import opened DagGraph
  import Kahn = TopologicalSort
  import Sup = SupervisorSystem
  import CompletionSignals
  import Reg = CompletionRuns
  import Ex = ExecutorRuns

  /** SubmitTask, each constructor named after the step that comes next. */
  datatype SubmitPc =
    | Enqueueing
    | Entering
    | Waiting(tid: nat)
    | Ended(ok: bool)

  datatype World = World(sup: Sup.State, reg: Reg.State, ex: Ex.Exec, subs: map<NodeId, SubmitPc>)

  datatype Move =
    | Supervise(who: Sup.Actor)
    | Signal(tid: nat)
    | Execute(act: Ex.Action, now: Time, message: string)
    | Enqueue(n: NodeId, ok: bool)
    | Enter(n: NodeId, tid: nat)
    | Registry(use: Reg.Action)
    | Cleanup(n: NodeId)
    | Finish(n: NodeId, now: Time, message: string)

  /** NewGraph only accepts nodes that carry a task. */
  predicate Tasked(g: Graph) {
    forall n :: n in g.nodes ==> g.nodes[n].task.Some?
  }

  function TaskOf(g: Graph, n: NodeId): Task
    requires Tasked(g) && n in g.nodes
  {
    Task(g.nodes[n].task.value.taskId, g.nodes[n].task.value.priority)
  }

  /** No node's Wait is the caller `tid`. */
  predicate NotOurs(subs: map<NodeId, SubmitPc>, tid: nat) {
    forall n :: n in subs && subs[n].Waiting? ==> subs[n].tid != tid
  }

  function Completing(r: Reg.State, id: TaskId): Reg.State {
    if id == "" then r else Reg.Next(r, Reg.Complete(id))
  }

  ghost predicate Step(g: Graph, levels: seq<seq<NodeId>>, w: World, w': World, m: Move, faulty: bool)
    requires Tasked(g)
  {
    match m
    case Supervise(who) =>
      && !(who.Caller? && Sup.AtSignal(w.sup, who.tid))
      && Sup.Step(w.sup, w'.sup, who, faulty) && w' == w.(sup := w'.sup)
    case Signal(tid) =>
      && Sup.AtSignal(w.sup, tid) && Sup.Step(w.sup, w'.sup, Sup.Caller(tid), faulty)
      && w' == w.(sup := w'.sup, reg := Completing(w.reg, w.sup.calls[tid].done.signal))
    case Execute(act, now, message) =>
      && Ex.Enabled(w.ex, levels, act) && !act.Return?
      && w' == w.(ex := Ex.Next(w.ex, levels, act, now, message),
                  subs := if act.Submit? then w.subs[act.n := Enqueueing] else w.subs)
    case Enqueue(n, ok) =>
      && n in w.subs && w.subs[n] == Enqueueing && n in g.nodes
      && (if ok then Sup.Step(w.sup, w'.sup, Sup.Submitter(TaskOf(g, n)), faulty) else w'.sup == w.sup)
      && w' == w.(sup := w'.sup, subs := w.subs[n := if ok then Entering else Ended(false)])
    case Enter(n, tid) =>
      && n in w.subs && w.subs[n] == Entering && n in g.nodes
      && Reg.Enabled(w.reg, Reg.Enter(tid, TaskOf(g, n).id))
      && w' == w.(reg := Reg.Next(w.reg, Reg.Enter(tid, TaskOf(g, n).id)), subs := w.subs[n := Waiting(tid)])
    case Registry(act) =>
      && !act.Complete? && (act.Cleanup? ==> NotOurs(w.subs, act.tid)) && Reg.Enabled(w.reg, act)
      && w' == w.(reg := Reg.Next(w.reg, act))
    case Cleanup(n) =>
      && n in w.subs && w.subs[n].Waiting? && Reg.Enabled(w.reg, Reg.Cleanup(w.subs[n].tid))
      && w' == w.(reg := Reg.Next(w.reg, Reg.Cleanup(w.subs[n].tid)),
                  subs := w.subs[n := Ended(w.reg.waits[w.subs[n].tid].ok)])
    case Finish(n, now, message) =>
      && n in w.subs && w.subs[n].Ended?
      && Ex.Enabled(w.ex, levels, Ex.Return(n, w.subs[n].ok))
      && w' == w.(ex := Ex.Next(w.ex, levels, Ex.Return(n, w.subs[n].ok), now, message))
  }

  ghost predicate Run(g: Graph, levels: seq<seq<NodeId>>, ws: seq<World>, ms: seq<Move>, faulty: bool) {
    && Tasked(g) && |ws| == |ms| + 1
    && Sup.Init(ws[0].sup) && Reg.Init(ws[0].reg) && Ex.Start(g, levels, ws[0].ex) && ws[0].subs == map[]
    && forall i {:trigger ms[i]} :: 0 <= i < |ms| ==> Step(g, levels, ws[i], ws[i + 1], ms[i], faulty)
  }

  // ---------------------------------------------------------------- the supervisor's share of a run

  function ActorOf(m: Move, g: Graph): Sup.Actor
    requires Tasked(g)
  {
    match m
    case Supervise(who) => who
    case Signal(tid) => Sup.Caller(tid)
    case Enqueue(n, true) => if n in g.nodes then Sup.Submitter(TaskOf(g, n)) else Sup.Ticker
    case _ => Sup.Ticker
  }

  lemma SupervisorStep(g: Graph, levels: seq<seq<NodeId>>, w: World, w': World, m: Move, faulty: bool)
    requires Tasked(g) && Step(g, levels, w, w', m, faulty)
    ensures Sup.Step(w.sup, w'.sup, ActorOf(m, g), faulty)
  {
  }

  /** Forgetting the other components leaves a run of the supervisor. */
  lemma SupervisorRun(g: Graph, levels: seq<seq<NodeId>>, ws: seq<World>, ms: seq<Move>, faulty: bool)
    returns (states: seq<Sup.State>, actors: seq<Sup.Actor>)
    requires Run(g, levels, ws, ms, faulty)
    ensures Sup.Run(states, actors, faulty)
    ensures |states| == |ws| && forall i :: 0 <= i < |ws| ==> states[i] == ws[i].sup
  {
    states := seq(|ws|, i requires 0 <= i < |ws| => ws[i].sup);
    actors := seq(|ms|, i requires 0 <= i < |ms| => ActorOf(ms[i], g));
    forall i | 0 <= i < |actors| ensures Sup.Step(states[i], states[i + 1], actors[i], faulty) {
      SupervisorStep(g, levels, ws[i], ws[i + 1], ms[i], faulty);
    }
  }

  // ---------------------------------------------------------------- the join

  /** The ids signalled are the ids the registry was called with; the empty id is never one. */
  ghost predicate SameSignals(s: Sup.State, r: Reg.State) {
    "" !in r.calls && forall id :: id in r.calls <==> id in s.hist.signalled
  }

  /** What a submitter's progress says about the queue and the registry. */
  ghost predicate SubmitOk(g: Graph, w: World, n: NodeId)
    requires Tasked(g) && n in w.subs
  {
    && n in g.nodes
    && (w.subs[n] != Enqueueing && w.subs[n] != Ended(false) ==> TaskOf(g, n) in w.sup.hist.submitted)
    && (w.subs[n].Waiting? ==> w.subs[n].tid in w.reg.waits && w.reg.waits[w.subs[n].tid].id == TaskOf(g, n).id)
    && (w.subs[n] == Ended(true) ==> TaskOf(g, n).id in w.reg.calls)
  }

  /** SubmitTask returned nil. */
  predicate Succeeded(x: Ex.Exec, n: NodeId) {
    n in x.pcs && (x.pcs[n] == Ex.NodePc.Returned(true) || x.pcs[n] == Ex.Done(true))
  }

  /** A submission that returned nil was released by a signal on the node's own task id. */
  ghost predicate NodeOk(g: Graph, w: World, n: NodeId)
    requires Tasked(g) && n in g.nodes
  {
    Succeeded(w.ex, n) ==> TaskOf(g, n).id in w.reg.calls && TaskOf(g, n) in w.sup.hist.submitted
  }

  ghost predicate OwnWaits(subs: map<NodeId, SubmitPc>) {
    forall n, m :: n in subs && m in subs && subs[n].Waiting? && subs[m].Waiting? && subs[n].tid == subs[m].tid ==>
                     n == m
  }

  ghost predicate Join(g: Graph, w: World)
    requires Tasked(g)
  {
    && SameSignals(w.sup, w.reg)
    && OwnWaits(w.subs)
    && (forall n :: n in w.subs ==> SubmitOk(g, w, n))
    && (forall n :: n in g.nodes ==> NodeOk(g, w, n))
  }

  /** Only DSignal changes what was signalled. */
  lemma SupervisorQuiet(s: Sup.State, s': Sup.State, who: Sup.Actor, faulty: bool)
    requires Sup.Step(s, s', who, faulty) && !(who.Caller? && Sup.AtSignal(s, who.tid))
    ensures s'.hist.signalled == s.hist.signalled && s.hist.submitted <= s'.hist.submitted
  {
    match who
    case Assigner => CompletionSignals.AssignQuiet(s, s', faulty);
    case _ =>
  }

  /** Steps only ever add to what was submitted and called. */
  lemma Growth(g: Graph, levels: seq<seq<NodeId>>, w: World, w': World, m: Move, faulty: bool)
    requires Tasked(g) && Step(g, levels, w, w', m, faulty)
    ensures w.sup.hist.submitted <= w'.sup.hist.submitted && w.reg.calls <= w'.reg.calls
    ensures SameSignals(w.sup, w.reg) ==> SameSignals(w'.sup, w'.reg)
  {
    match m
    case Supervise(who) => SupervisorQuiet(w.sup, w'.sup, who, faulty);
    case Enqueue(n, true) => SupervisorQuiet(w.sup, w'.sup, Sup.Submitter(TaskOf(g, n)), faulty);
    case _ =>
  }

  lemma OnlyReturnSucceeds(levels: seq<seq<NodeId>>, x: Ex.Exec, act: Ex.Action, now: Time, message: string, n: NodeId)
    requires Ex.Enabled(x, levels, act) && act != Ex.Return(n, true)
    ensures Succeeded(Ex.Next(x, levels, act, now, message), n) ==> Succeeded(x, n)
  {
  }

  /** An executor goroutine gets past its submission only through Finish. */
  lemma NodeMoved(g: Graph, levels: seq<seq<NodeId>>, w: World, w': World, m: Move, n: NodeId, faulty: bool)
    requires Tasked(g) && Step(g, levels, w, w', m, faulty) && Succeeded(w'.ex, n)
    ensures Succeeded(w.ex, n) || (n in w.subs && w.subs[n] == Ended(true))
  {
    match m
    case Execute(act, now, message) => OnlyReturnSucceeds(levels, w.ex, act, now, message, n);
    case Finish(k, now, message) =>
      if k != n || !w.subs[n].ok {
        OnlyReturnSucceeds(levels, w.ex, Ex.Return(k, w.subs[k].ok), now, message, n);
      }
    case _ =>
  }

  lemma NodeJoin(g: Graph, levels: seq<seq<NodeId>>, w: World, w': World, m: Move, n: NodeId, faulty: bool)
    requires Tasked(g) && Step(g, levels, w, w', m, faulty) && n in g.nodes
    requires NodeOk(g, w, n) && (n in w.subs ==> SubmitOk(g, w, n))
    ensures NodeOk(g, w', n)
  {
    Growth(g, levels, w, w', m, faulty);
    if Succeeded(w'.ex, n) {
      NodeMoved(g, levels, w, w', m, n, faulty);
    }
  }

  /** A wait stays with its task id until its own submitter cleans it up. */
  lemma WaitKept(g: Graph, levels: seq<seq<NodeId>>, w: World, w': World, m: Move, n: NodeId, faulty: bool)
    requires Tasked(g) && Step(g, levels, w, w', m, faulty) && OwnWaits(w.subs)
    requires n in w.subs && w.subs[n].Waiting? && w.subs[n].tid in w.reg.waits
    requires !(m.Cleanup? && m.n == n)
    ensures w.subs[n].tid in w'.reg.waits && w'.reg.waits[w.subs[n].tid].id == w.reg.waits[w.subs[n].tid].id
  {
  }

  /** What a submitter does next. */
  lemma SubmitMoved(g: Graph, levels: seq<seq<NodeId>>, w: World, w': World, m: Move, n: NodeId, faulty: bool)
    requires Tasked(g) && Step(g, levels, w, w', m, faulty) && n in w'.subs
    ensures || (n in w.subs && w'.subs[n] == w.subs[n] && !(m.Cleanup? && m.n == n))
            || (w'.subs[n] == Enqueueing && n in w.ex.pcs)
            || (w'.subs[n] == Ended(false) && n in w.subs)
            || (w'.subs[n] == Entering && n in w.subs && n in g.nodes && TaskOf(g, n) in w'.sup.hist.submitted)
            || (w'.subs[n].Waiting? && n in w.subs && w.subs[n] == Entering && n in g.nodes
                && w'.subs[n].tid in w'.reg.waits && w'.reg.waits[w'.subs[n].tid].id == TaskOf(g, n).id)
            || (w'.subs[n] == Ended(true) && n in w.subs && w.subs[n].Waiting? && w.subs[n].tid in w.reg.waits
                && w.reg.waits[w.subs[n].tid] == Reg.Returned(w.reg.waits[w.subs[n].tid].id, true))
  {
  }

  lemma SubmitJoin(g: Graph, levels: seq<seq<NodeId>>, w: World, w': World, m: Move, n: NodeId, faulty: bool)
    requires Tasked(g) && Step(g, levels, w, w', m, faulty) && n in w'.subs
    requires OwnWaits(w.subs) && w.ex.pcs.Keys == g.nodes.Keys
    requires n in w.subs ==> SubmitOk(g, w, n)
    requires n in w.subs && w.subs[n].Waiting? && w.subs[n].tid in w.reg.waits ==>
               Reg.Claims(w.reg, w.reg.waits[w.subs[n].tid])
    ensures SubmitOk(g, w', n)
  {
    Growth(g, levels, w, w', m, faulty);
    SubmitMoved(g, levels, w, w', m, n, faulty);
    if n in w.subs && w'.subs[n] == w.subs[n] && w.subs[n].Waiting? && !(m.Cleanup? && m.n == n) {
      WaitKept(g, levels, w, w', m, n, faulty);
    }
  }

  lemma RegistryStep(g: Graph, levels: seq<seq<NodeId>>, w: World, w': World, m: Move, faulty: bool)
    requires Tasked(g) && Step(g, levels, w, w', m, faulty) && Reg.Inv(w.reg)
    ensures Reg.Inv(w'.reg)
  {
    match m
    case Signal(tid) =>
      var id := w.sup.calls[tid].done.signal;
      if id != "" {
        Reg.StepInv(w.reg, Reg.Complete(id));
      }
    case Enter(n, tid) => Reg.StepInv(w.reg, Reg.Enter(tid, TaskOf(g, n).id));
    case Registry(act) => Reg.StepInv(w.reg, act);
    case Cleanup(n) => Reg.StepInv(w.reg, Reg.Cleanup(w.subs[n].tid));
    case _ =>
  }

  lemma ExecutorStep(g: Graph, levels: seq<seq<NodeId>>, w: World, w': World, m: Move, faulty: bool)
    requires Tasked(g) && Step(g, levels, w, w', m, faulty) && Ex.Inv(g, levels, w.ex) && Kahn.Layering(g, levels)
    ensures Ex.Inv(g, levels, w'.ex)
  {
    match m
    case Execute(act, now, message) => Ex.NextInv(g, levels, w.ex, act, now, message);
    case Finish(n, now, message) => Ex.NextInv(g, levels, w.ex, Ex.Return(n, w.subs[n].ok), now, message);
    case _ =>
  }

  lemma OwnWaitsStep(g: Graph, levels: seq<seq<NodeId>>, w: World, w': World, m: Move, faulty: bool)
    requires Tasked(g) && Step(g, levels, w, w', m, faulty) && OwnWaits(w.subs)
    requires forall n :: n in w.subs && w.subs[n].Waiting? ==> w.subs[n].tid in w.reg.waits
    ensures OwnWaits(w'.subs)
  {
  }

  /** What the registry's invariant says about the waits of the nodes. */
  ghost predicate OwnClaims(w: World) {
    forall n :: n in w.subs && w.subs[n].Waiting? && w.subs[n].tid in w.reg.waits ==>
      Reg.Claims(w.reg, w.reg.waits[w.subs[n].tid])
  }

  lemma JoinStep(g: Graph, levels: seq<seq<NodeId>>, w: World, w': World, m: Move, faulty: bool)
    requires Tasked(g) && Step(g, levels, w, w', m, faulty)
    requires Join(g, w) && OwnClaims(w) && w.ex.pcs.Keys == g.nodes.Keys
    ensures Join(g, w')
  {
    Growth(g, levels, w, w', m, faulty);
    forall n | n in w.subs && w.subs[n].Waiting? ensures w.subs[n].tid in w.reg.waits {
      assert SubmitOk(g, w, n);
    }
    OwnWaitsStep(g, levels, w, w', m, faulty);
    forall n | n in w'.subs ensures SubmitOk(g, w', n) {
      assert n in w.subs ==> SubmitOk(g, w, n);
      SubmitJoin(g, levels, w, w', m, n, faulty);
    }
    forall n | n in g.nodes ensures NodeOk(g, w', n) {
      NodeJoin(g, levels, w, w', m, n, faulty);
    }
  }

  lemma {:induction false} RunRegistry(g: Graph, levels: seq<seq<NodeId>>, ws: seq<World>, ms: seq<Move>, faulty: bool,
                                       i: nat)
    requires Run(g, levels, ws, ms, faulty) && i < |ws|
    ensures Reg.Inv(ws[i].reg)
  {
    if i > 0 {
      RunRegistry(g, levels, ws, ms, faulty, i - 1);
      RegistryStep(g, levels, ws[i - 1], ws[i], ms[i - 1], faulty);
    }
  }

  lemma {:induction false} RunExecutor(g: Graph, levels: seq<seq<NodeId>>, ws: seq<World>, ms: seq<Move>, faulty: bool,
                                       i: nat)
    requires Run(g, levels, ws, ms, faulty) && i < |ws|
    ensures Ex.Inv(g, levels, ws[i].ex)
  {
    if i == 0 {
      Ex.StartInv(g, levels, ws[0].ex);
    } else {
      RunExecutor(g, levels, ws, ms, faulty, i - 1);
      ExecutorStep(g, levels, ws[i - 1], ws[i], ms[i - 1], faulty);
    }
  }

  /** The share of the other components in the join. */
  lemma RunShares(g: Graph, levels: seq<seq<NodeId>>, ws: seq<World>, ms: seq<Move>, faulty: bool, i: nat)
    requires Run(g, levels, ws, ms, faulty) && i < |ws|
    ensures OwnClaims(ws[i]) && ws[i].ex.pcs.Keys == g.nodes.Keys
  {
    RunRegistry(g, levels, ws, ms, faulty, i);
    RunExecutor(g, levels, ws, ms, faulty, i);
  }

  lemma {:induction false} RunJoin(g: Graph, levels: seq<seq<NodeId>>, ws: seq<World>, ms: seq<Move>, faulty: bool,
                                   i: nat)
    requires Run(g, levels, ws, ms, faulty) && i < |ws|
    ensures Join(g, ws[i])
  {
    if i > 0 {
      RunJoin(g, levels, ws, ms, faulty, i - 1);
      RunShares(g, levels, ws, ms, faulty, i - 1);
      JoinStep(g, levels, ws[i - 1], ws[i], ms[i - 1], faulty);
    }
  }
}
