/**
 What a COMPLETED node stands for: its own task was submitted, its completion was
 signalled, and a task with this id was bound to an agent and delivered.  The
 theorems are about every interleaving of the whole system of EndToEnd.dfy, with
 and without failing store calls.
 */
module NodeCompletions {
  import opened Types
  import opened DagGraph
  import opened EndToEnd
  import Status
  import Sup = SupervisorSystem
  import Conservation
  import CompletionSignals
  import Reg = CompletionRuns
  import Ex = ExecutorRuns

  /** The node's record says COMPLETED. */
  predicate NodeCompleted(w: World, n: NodeId) {
    n in w.ex.record.nodes && w.ex.record.nodes[n].state == Status.Completed
  }

  /**
   Whatever store calls fail, a node is COMPLETED only after completeAgent signalled the
   node's own task id, which was submitted and is not empty.
   */
  lemma CompletedWasSignalled(g: Graph, levels: seq<seq<NodeId>>, ws: seq<World>, ms: seq<Move>, faulty: bool,
                              i: nat, n: NodeId)
    requires Run(g, levels, ws, ms, faulty) && i < |ws| && n in g.nodes && NodeCompleted(ws[i], n)
    ensures var h := ws[i].sup.hist;
            TaskOf(g, n).id in h.signalled && TaskOf(g, n) in h.submitted && TaskOf(g, n).id != ""
  {
    RunJoin(g, levels, ws, ms, faulty, i);
    RunExecutor(g, levels, ws, ms, faulty, i);
    assert Ex.NodeOk(ws[i].ex, n) && NodeOk(g, ws[i], n);
  }

  /** A COMPLETED node's task id is that of a submitted task which an agent had bound and delivered. */
  lemma CompletedStandsForDelivery(g: Graph, levels: seq<seq<NodeId>>, ws: seq<World>, ms: seq<Move>, i: nat, n: NodeId)
    requires Run(g, levels, ws, ms, false) && i < |ws| && n in g.nodes && NodeCompleted(ws[i], n)
    requires CompletionSignals.AllNamed(ws[i].sup.hist.submitted)
    ensures var h := ws[i].sup.hist;
            exists x: Task :: x in h.delivered && x in h.submitted && x.id == TaskOf(g, n).id
  {
    CompletedWasSignalled(g, levels, ws, ms, false, i, n);
    var states, actors := SupervisorRun(g, levels, ws, ms, false);
    CompletionSignals.SignalsAreDeliveries(states, actors, i);
  }

  /**
   With distinct and non-empty task ids a COMPLETED node's very task, priority included,
   was delivered exactly once; it is in no queue, in no hand and with no agent any more.
   */
  lemma CompletedWasDelivered(g: Graph, levels: seq<seq<NodeId>>, ws: seq<World>, ms: seq<Move>, i: nat, n: NodeId)
    requires Run(g, levels, ws, ms, false) && i < |ws| && n in g.nodes && NodeCompleted(ws[i], n)
    requires Conservation.DistinctIds(ws[i].sup.hist.submitted)
    requires CompletionSignals.AllNamed(ws[i].sup.hist.submitted)
    ensures var s := ws[i].sup;
            var x := TaskOf(g, n);
            && s.hist.delivered[x] == 1 && x !in s.sh.queue && Conservation.Holders(s, x) == {}
            && Conservation.AssignHand(s.assign, x) == 0 && Conservation.BeatHand(s.beat, x) == 0
  {
    CompletedWasSignalled(g, levels, ws, ms, false, i, n);
    CompletedStandsForDelivery(g, levels, ws, ms, i, n);
    var states, actors := SupervisorRun(g, levels, ws, ms, false);
    Conservation.TaskConservation(states, actors, i);
    var x := TaskOf(g, n);
    var h := ws[i].sup.hist;
    var y: Task :| y in h.delivered && y in h.submitted && y.id == x.id;
    assert y == x && h.submitted[x] <= 1;
    assert multiset(ws[i].sup.sh.queue)[x] == 0;
  }

  lemma CompleteWakes(r: Reg.State, tid: nat)
    requires tid in r.waits && r.waits[tid].Blocked? && r.waits[tid].id != "" && Reg.Inv(r)
    ensures Reg.Enabled(Completing(r, r.waits[tid].id), Reg.Wake(tid))
  {
    assert Reg.Claims(r, r.waits[tid]);
  }

  /** A signal on the task of a node whose Wait is blocked lets that Wait return nil. */
  lemma SignalReleasesNode(g: Graph, levels: seq<seq<NodeId>>, ws: seq<World>, ms: seq<Move>, faulty: bool,
                           i: nat, n: NodeId, tid: nat)
    requires Run(g, levels, ws, ms, faulty) && i < |ms| && n in g.nodes && n in ws[i].subs && ws[i].subs[n].Waiting?
    requires ws[i].subs[n].tid in ws[i].reg.waits && ws[i].reg.waits[ws[i].subs[n].tid].Blocked?
    requires ms[i] == Signal(tid) && Sup.AtSignal(ws[i].sup, tid)
    requires ws[i].sup.calls[tid].done.signal == TaskOf(g, n).id != ""
    ensures Reg.Enabled(ws[i + 1].reg, Reg.Wake(ws[i].subs[n].tid))
  {
    RunJoin(g, levels, ws, ms, faulty, i);
    RunRegistry(g, levels, ws, ms, faulty, i);
    assert SubmitOk(g, ws[i], n);
    CompleteWakes(ws[i].reg, ws[i].subs[n].tid);
    assert Step(g, levels, ws[i], ws[i + 1], ms[i], faulty);
  }
}
