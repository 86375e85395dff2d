/** The status tracker of DAG executions. */
module Status {
  import opened Types

  datatype ExecState = Pending | Running | Completed | Failed

  /** `Skipped` is the executor's "skipped: upstream failure"; `Returned` is SubmitTask's own error. */
  datatype Failure = Nothing | Skipped | Returned(message: string)

  datatype NodeStatus = NodeStatus(state: ExecState, startedAt: Option<Time>, completedAt: Option<Time>, error: Failure)

  datatype Record = Record(dagId: string, state: ExecState, nodes: map<NodeId, NodeStatus>, startedAt: Time,
                           completedAt: Option<Time>)

  // ---------------------------------------------------------------- what one mark does to one record

  function SetNode(r: Record, n: NodeId, s: NodeStatus): Record {
    r.(nodes := r.nodes[n := s])
  }

  predicate AllCompleted(nodes: map<NodeId, NodeStatus>) {
    forall n :: n in nodes ==> nodes[n].state == Completed
  }

  function Created(dagId: string, ids: set<NodeId>, now: Time): Record {
    Record(dagId, Running, map n | n in ids :: NodeStatus(Pending, None, None, Nothing), now, None)
  }

  function MarkedRunning(r: Record, n: NodeId, now: Time): Record {
    if n !in r.nodes then r else SetNode(r, n, r.nodes[n].(state := Running, startedAt := Some(now)))
  }

  function MarkedCompleted(r: Record, n: NodeId, now: Time): Record {
    if n !in r.nodes then r
    else
      var q := SetNode(r, n, r.nodes[n].(state := Completed, completedAt := Some(now)));
      if AllCompleted(q.nodes) then q.(state := Completed, completedAt := Some(now)) else q
  }

  function MarkedFailed(r: Record, n: NodeId, error: Failure, now: Time): Record {
    if n !in r.nodes then r
    else
      SetNode(r, n, r.nodes[n].(state := Failed, completedAt := Some(now), error := error))
      .(state := Failed, completedAt := if r.completedAt.None? then Some(now) else r.completedAt)
  }

  /** What the execution state is meant to say about the node states. */
  ghost predicate Consistent(r: Record) {
    && r.nodes != map[]
    && (r.state == Completed <==> AllCompleted(r.nodes))
    && (r.state == Failed <==> exists n :: n in r.nodes && r.nodes[n].state == Failed)
    && r.state != Pending
  }

  lemma RunningConsistent(r: Record, n: NodeId, now: Time)
    requires Consistent(r) && n in r.nodes && r.nodes[n].state == Pending
    ensures Consistent(MarkedRunning(r, n, now))
  {
    var q := MarkedRunning(r, n, now);
    assert q.nodes[n].state == Running;
    if r.state == Failed {
      var m :| m in r.nodes && r.nodes[m].state == Failed;
      assert q.nodes[m].state == Failed;
    }
  }

  /** A completion keeps the record consistent unless it overwrites the only failure of an unfinished execution. */
  lemma CompletedConsistent(r: Record, n: NodeId, now: Time)
    requires Consistent(r) && n in r.nodes
    ensures Consistent(MarkedCompleted(r, n, now)) <==>
              || r.nodes[n].state != Failed
              || (exists m :: m in r.nodes && m != n && r.nodes[m].state == Failed)
              || (forall m :: m in r.nodes && m != n ==> r.nodes[m].state == Completed)
  {
    var q := MarkedCompleted(r, n, now);
    assert n in q.nodes && q.nodes[n].state == Completed;
    assert forall m :: m != n ==> (m in q.nodes <==> m in r.nodes) && (m in r.nodes ==> q.nodes[m] == r.nodes[m]);
    if r.state == Failed {
      var m :| m in r.nodes && r.nodes[m].state == Failed;
      assert m != n ==> q.nodes[m].state == Failed;
    }
  }

  lemma FailedConsistent(r: Record, n: NodeId, error: Failure, now: Time)
    requires Consistent(r) && n in r.nodes
    ensures Consistent(MarkedFailed(r, n, error, now))
  {
    var q := MarkedFailed(r, n, error, now);
    assert n in q.nodes && q.nodes[n].state == Failed;
  }

  // ---------------------------------------------------------------- the tracker

  class StatusTracker {
    var records: map<string, Record>

    /** The execution and the node are known. */
    predicate Knows(executionID: string, nodeID: NodeId)
      reads this
    {
      executionID in records && nodeID in records[executionID].nodes
    }

    /** Every execution but this one is as before, and in this one every node but this one. */
    ghost predicate OnlyNode(before: map<string, Record>, executionID: string, nodeID: NodeId)
      reads this
    {
      && records.Keys == before.Keys
      && (forall e :: e in before && e != executionID ==> records[e] == before[e])
      && (executionID in before ==>
            var r, q := before[executionID], records[executionID];
            && q.nodes.Keys == r.nodes.Keys && q.dagId == r.dagId && q.startedAt == r.startedAt
            && forall n :: n in r.nodes && n != nodeID ==> q.nodes[n] == r.nodes[n])
    }

    constructor ()
      ensures records == map[]
    {
      records := map[];
    }

    method CreateExecution(executionID: string, dagId: string, nodeIDs: seq<NodeId>, now: Time)
      modifies this
      ensures records == old(records)[executionID := Created(dagId, (set n | n in nodeIDs), now)]
      ensures nodeIDs != [] ==> Consistent(records[executionID])
      ensures var r := records[executionID];
              && r.dagId == dagId && r.state == Running && r.startedAt == now && r.completedAt == None
              && (forall n :: n in r.nodes <==> n in nodeIDs)
              && (forall n :: n in r.nodes ==> r.nodes[n] == NodeStatus(Pending, None, None, Nothing))
    {
      var nodes: map<NodeId, NodeStatus> := map[];
      var i := 0;
      while i < |nodeIDs|
        invariant 0 <= i <= |nodeIDs|
        invariant nodes == map n | n in nodeIDs[..i] :: NodeStatus(Pending, None, None, Nothing)
      {
        nodes := nodes[nodeIDs[i] := NodeStatus(Pending, None, None, Nothing)];
        i := i + 1;
      }
      assert nodeIDs[..i] == nodeIDs;
      assert nodes == Created(dagId, (set n | n in nodeIDs), now).nodes;
      records := records[executionID := Record(dagId, Running, nodes, now, None)];
      if nodeIDs != [] {
        assert nodeIDs[0] in nodes && nodes[nodeIDs[0]].state == Pending;
      }
    }

    method MarkNodeRunning(executionID: string, nodeID: NodeId, now: Time)
      modifies this
      ensures records == if executionID in old(records)
                         then old(records)[executionID := MarkedRunning(old(records)[executionID], nodeID, now)]
                         else old(records)
      ensures OnlyNode(old(records), executionID, nodeID)
      ensures !old(Knows(executionID, nodeID)) ==> records == old(records)
      ensures old(Knows(executionID, nodeID)) ==>
                var r, q := old(records)[executionID], records[executionID];
                && q.nodes[nodeID] == r.nodes[nodeID].(state := Running, startedAt := Some(now))
                && q.state == r.state && q.completedAt == r.completedAt
    {
      if executionID !in records {
        return;
      }
      var rec := records[executionID];
      if nodeID !in rec.nodes {
        assert records == records[executionID := rec];
        return;
      }
      var node := rec.nodes[nodeID].(state := Running, startedAt := Some(now));
      records := records[executionID := SetNode(rec, nodeID, node)];
    }

    /** allNodesCompleted: stop at the first node that is not. */
    static method AllNodesCompleted(nodes: map<NodeId, NodeStatus>) returns (all: bool)
      ensures all <==> AllCompleted(nodes)
    {
      var todo := nodes.Keys;
      while todo != {}
        invariant todo <= nodes.Keys
        invariant forall n :: n in nodes && n !in todo ==> nodes[n].state == Completed
        decreases todo
      {
        var n :| n in todo;
        if nodes[n].state != Completed {
          return false;
        }
        todo := todo - {n};
      }
      return true;
    }

    method MarkNodeCompleted(executionID: string, nodeID: NodeId, now: Time)
      modifies this
      ensures records == if executionID in old(records)
                         then old(records)[executionID := MarkedCompleted(old(records)[executionID], nodeID, now)]
                         else old(records)
      ensures OnlyNode(old(records), executionID, nodeID)
      ensures !old(Knows(executionID, nodeID)) ==> records == old(records)
      ensures old(Knows(executionID, nodeID)) ==>
                var r, q := old(records)[executionID], records[executionID];
                && q.nodes[nodeID] == r.nodes[nodeID].(state := Completed, completedAt := Some(now))
                && if forall n :: n in r.nodes && n != nodeID ==> r.nodes[n].state == Completed
                   then q.state == Completed && q.completedAt == Some(now)
                   else q.state == r.state && q.completedAt == r.completedAt
    {
      if executionID !in records {
        return;
      }
      var rec := records[executionID];
      if nodeID !in rec.nodes {
        assert records == records[executionID := rec];
        return;
      }
      rec := SetNode(rec, nodeID, rec.nodes[nodeID].(state := Completed, completedAt := Some(now)));
      var all := AllNodesCompleted(rec.nodes);
      if all {
        rec := rec.(state := Completed, completedAt := Some(now));
      }
      records := records[executionID := rec];
    }

    method MarkNodeFailed(executionID: string, nodeID: NodeId, error: Failure, now: Time)
      modifies this
      ensures records == if executionID in old(records)
                         then old(records)[executionID := MarkedFailed(old(records)[executionID], nodeID, error, now)]
                         else old(records)
      ensures OnlyNode(old(records), executionID, nodeID)
      ensures !old(Knows(executionID, nodeID)) ==> records == old(records)
      ensures old(Knows(executionID, nodeID)) ==>
                var r, q := old(records)[executionID], records[executionID];
                && q.nodes[nodeID] == r.nodes[nodeID].(state := Failed, completedAt := Some(now), error := error)
                && q.state == Failed
                && q.completedAt == if r.completedAt.None? then Some(now) else r.completedAt
    {
      if executionID !in records {
        return;
      }
      var rec := records[executionID];
      if nodeID !in rec.nodes {
        assert records == records[executionID := rec];
        return;
      }
      rec := SetNode(rec, nodeID, rec.nodes[nodeID].(state := Failed, completedAt := Some(now), error := error));
      rec := rec.(state := Failed);
      if rec.completedAt.None? {
        rec := rec.(completedAt := Some(now));
      }
      records := records[executionID := rec];
    }

    /** ActiveCount: how many executions are RUNNING. */
    method ActiveCount() returns (count: nat)
      ensures count == |set e | e in records && records[e].state == Running|
    {
      count := 0;
      var todo := records.Keys;
      ghost var active: set<string> := {};
      while todo != {}
        invariant todo <= records.Keys && count == |active|
        invariant active == set e | e in records && e !in todo && records[e].state == Running
        decreases todo
      {
        var e :| e in todo;
        ghost var was := active;
        if records[e].state == Running {
          count := count + 1;
          active := active + {e};
          assert e !in was;
        }
        todo := todo - {e};
      }
      assert active == set e | e in records && records[e].state == Running;
    }
  }
}
