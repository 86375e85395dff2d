/**
 The supervisor object.  Its methods run here one at a time, against the store,
 policy and registry objects; what interleaving them can do is the subject of the
 step system.  The terminal substrate is absent.
 */
module SupervisorService {
  import opened Types
  import opened Agent
  import opened SupervisorSystem
  import opened Store
  import opened HeartbeatSweep
  import Completion
  import Restart

  datatype Failure =
    | InvalidAgentID
    | Stopped
    | Transition(error: TransitionError)
    | StoreFailure(cause: StoreError)

  predicate ValidId(a: AgentId) {
    a != "" && |a| <= 128
  }

  class Supervisor {
    const store: MockStore
    const machine: Machine
    const policy: Restart.RestartPolicy
    const registry: Completion.CompletionRegistry
    const taskPollInterval: Time
    const staleMillis: int

    var agentMu: set<AgentId>
    var agentCooldown: map<AgentId, Time>
    var circuitOpen: set<AgentId>
    var stopped: bool
    var consecutiveAssignErrors: nat
    var nextAssignAttempt: Option<Time>

    ghost predicate Valid()
      reads store`queue, store`streamEvents, store`streamSeq
    {
      machine.store == store && store.Valid()
    }

    /** No store call is configured to fail. */
    ghost predicate Healthy()
      reads store`compareAndSetErr, store`clearCurrentTaskErr, store`enqueueTaskErr, store`dequeueTaskErr
      reads store`getAgentFieldsErr, store`setAgentFieldsErr, store`getAgentFieldsByAgent, store`setAgentFieldsByAgent
    {
      && store.compareAndSetErr.None? && store.clearCurrentTaskErr.None?
      && store.enqueueTaskErr.None? && store.dequeueTaskErr.None?
      && store.getAgentFieldsErr.None? && store.setAgentFieldsErr.None?
      && store.getAgentFieldsByAgent == map[] && store.setAgentFieldsByAgent == map[]
    }

    constructor (s: MockStore, p: Restart.RestartPolicy, r: Completion.CompletionRegistry, interval: Time, stale: int)
      requires s.Valid()
      ensures Valid() && store == s && policy == p && registry == r
      ensures agentMu == {} && agentCooldown == map[] && circuitOpen == {} && !stopped
    {
      store, policy, registry, taskPollInterval, staleMillis := s, p, r, interval, stale;
      agentMu, agentCooldown, circuitOpen, stopped := {}, map[], {}, false;
      consecutiveAssignErrors, nextAssignAttempt := 0, None;
      machine := new Machine(s);
    }

    /** The event stream with one more entry: an event of this kind about this agent and task. */
    ghost function Logged(events: seq<StreamEvent>, kind: string, a: AgentId, task: TaskId, now: Time): seq<StreamEvent>
      reads store`streamSeq
    {
      events + [StreamEvent(store.streamSeq, Event(kind, a, task, Millis(now), ""))]
    }

    method Publish(kind: string, a: AgentId, task: TaskId, now: Time)
      requires store.Valid()
      modifies store`streamEvents, store`streamSeq
      ensures store.Valid() && store.streamSeq == old(store.streamSeq) + 1
      ensures store.streamEvents == Logged(old(store.streamEvents), kind, a, task, now)
    {
      store.PublishEvent(Event(kind, a, task, Millis(now), ""), Millis(now));
    }

    // -------------------------------------------------------------- registration and progress

    /** Stop, as far as registration sees it. */
    method Stop()
      modifies this`stopped
      ensures stopped
    {
      stopped := true;
    }

    /**
     The record is written outside the lock, so a Stop may come before the mutex is
     entered; then the record stays behind without one, and the caller gets an error.
     */
    method RegisterAgent(a: AgentId, now: Time) returns (r: Result<(), Failure>)
      requires Valid()
      modifies this`agentMu, this`stopped, store`agents, store`streamEvents, store`streamSeq
      ensures Valid()
      ensures r.Ok? ==> ValidId(a) && !stopped && agentMu == old(agentMu) + {a}
                        && store.agents == old(store.agents)[a := Fields(Idle, Millis(now), "", 0.0, Millis(now))]
      ensures r.Err? ==> agentMu == old(agentMu)
      ensures r.Err? && !(r.error.Stopped? && !old(stopped)) ==> store.agents == old(store.agents)
      ensures store.streamEvents == if r.Ok? then Logged(old(store.streamEvents), "agent_registered", a, "", now)
                                    else old(store.streamEvents)
      ensures r.Err? && r.error.Stopped? && !old(stopped) ==>
                stopped && store.agents == old(store.agents)[a := Fields(Idle, Millis(now), "", 0.0, Millis(now))]
      ensures Healthy() && ValidId(a) && !stopped ==> r.Ok?
      ensures old(stopped) ==> stopped
    {
      if a == "" || |a| > 128 {
        return Err(InvalidAgentID);
      }
      if stopped {
        return Err(Stopped);
      }
      var written := store.SetAgentFields(a, Fields(Idle, Millis(now), "", 0.0, Millis(now)));
      if written.Err? {
        return Err(StoreFailure(written.error));
      }
      if * {
        Stop();
      }
      if stopped {
        return Err(Stopped);
      }
      agentMu := agentMu + {a};
      Publish("agent_registered", a, "", now);
      r := Ok(());
    }

    /** Refreshes the heartbeat and nothing else of the record. */
    method Heartbeat(a: AgentId, now: Time) returns (r: Result<(), Failure>)
      requires Valid()
      modifies store`agents
      ensures Valid()
      ensures r.Ok? ==> a in old(store.agents)
                        && store.agents == old(store.agents)[a := old(store.agents)[a].(lastHeartbeat := Millis(now))]
      ensures r.Err? ==> store.agents == old(store.agents)
      ensures Healthy() ==> (r.Ok? <==> ValidId(a) && !stopped && a in agentMu && a in old(store.agents))
    {
      if a == "" || |a| > 128 {
        return Err(InvalidAgentID);
      }
      if stopped || a !in agentMu {
        return Err(Stopped);
      }
      var fields := store.GetAgentFields(a);
      if fields.Err? {
        return Err(StoreFailure(fields.error));
      }
      var written := store.SetAgentFields(a, fields.value.(lastHeartbeat := Millis(now)));
      if written.Err? {
        return Err(StoreFailure(written.error));
      }
      r := Ok(());
    }

    /** StartWork and ReportOutput: one transition, with or without the agent's mutex. */
    method Advance(a: AgentId, event: AgentEvent, now: Time) returns (r: Result<(), Failure>)
      requires Valid() && (event == WorkStarted || event == OutputReady)
      modifies store`agents, store`streamEvents, store`streamSeq
      ensures Valid()
      ensures r.Ok? ==> a in old(store.agents)
                        && ValidTransition(old(store.agents)[a].state, event).Some?
                        && store.agents == old(store.agents)[a := old(store.agents)[a].(state :=
                             ValidTransition(old(store.agents)[a].state, event).value)]
      ensures r.Err? ==> store.agents == old(store.agents)
      ensures r.Ok? <==> ValidId(a) && store.compareAndSetErr.None? && a in old(store.agents)
                         && ValidTransition(old(store.agents)[a].state, event).Some?
      ensures r.Ok? <==> ValidId(a) && store.compareAndSetErr.None? && a in old(store.agents)
                         && old(store.agents)[a].state == (if event == WorkStarted then Assigned else Working)
      ensures r.Ok? ==> store.agents[a].state == if event == WorkStarted then Working else Reporting
      ensures store.streamEvents ==
              if r.Ok? && a in agentMu
              then Logged(old(store.streamEvents), if event == WorkStarted then "work_started" else "output_ready",
                          a, "", now)
              else old(store.streamEvents)
    {
      if a == "" || |a| > 128 {
        return Err(InvalidAgentID);
      }
      var applied := machine.ApplyEvent(a, event);
      if applied.Err? {
        return Err(Transition(applied.error));
      }
      if a in agentMu {
        Publish(if event == WorkStarted then "work_started" else "output_ready", a, "", now);
      }
      r := Ok(());
    }

    // -------------------------------------------------------------- assignment

    /** The agent may be given a task. */
    ghost predicate Assignable(a: AgentId, now: Time)
      reads `circuitOpen, `agentCooldown, store`agents
    {
      && a in store.agents && store.agents[a].state == Idle
      && a !in circuitOpen && !Cooling(agentCooldown, a, now)
    }

    /** Finds an assignable agent if and only if there is one. */
    method FindIdleAgent(now: Time) returns (found: Option<AgentId>)
      ensures found.Some? ==> Assignable(found.value, now)
      ensures found.None? ==> forall a :: !Assignable(a, now)
    {
      var agents := store.ListAgents();
      var cooldownSnap := agentCooldown;
      var circuitSnap := circuitOpen;
      var i := 0;
      while i < |agents|
        invariant 0 <= i <= |agents| && forall j :: 0 <= j < i ==> !Assignable(agents[j], now)
      {
        var a := agents[i];
        i := i + 1;
        var state := store.GetAgentState(a);
        if state.Err? || state.value != Idle || a in circuitSnap || Cooling(cooldownSnap, a, now) {
          continue;
        }
        if a in circuitOpen || Cooling(agentCooldown, a, now) {
          continue;
        }
        return Some(a);
      }
      assert forall a :: a in store.agents ==> a in agents;
      found := None;
    }

    /** The loop waits 2^n poll intervals after the n-th consecutive error, and 2^6 from the sixth on. */
    ghost predicate BackedOff(errors: nat, now: Time)
      reads this`consecutiveAssignErrors, this`nextAssignAttempt
    {
      && consecutiveAssignErrors == errors
      && nextAssignAttempt ==
           Some(now + taskPollInterval * [1, 2, 4, 8, 16, 32, 64][if errors > 6 then 6 else errors])
    }

    method RecordAssignError(now: Time)
      modifies this`consecutiveAssignErrors, this`nextAssignAttempt
      ensures BackedOff(old(consecutiveAssignErrors) + 1, now)
    {
      consecutiveAssignErrors := consecutiveAssignErrors + 1;
      var shift := consecutiveAssignErrors;
      if shift > 6 {
        shift := 6;
      }
      var factor := 1;
      var i := 0;
      while i < shift
        invariant 0 <= i <= shift && factor == [1, 2, 4, 8, 16, 32, 64][i]
      {
        factor := factor * 2;
        i := i + 1;
      }
      nextAssignAttempt := Some(now + taskPollInterval * factor);
    }

    /** The task goes back to the queue, or is lost if the store refuses it. */
    method Requeue(t: Task)
      requires store.Valid()
      modifies store`queue
      ensures store.Valid()
      ensures store.enqueueTaskErr.None? ==> Enqueued(old(store.queue), t, store.queue)
      ensures store.enqueueTaskErr.Some? ==> store.queue == old(store.queue)
    {
      var _ := store.EnqueueTask(t);
    }

    /** The task is bound to the agent; nothing else about any agent changes. */
    ghost predicate BoundTo(before: map<AgentId, Fields>, after: map<AgentId, Fields>, a: AgentId, t: Task) {
      && a in before && before[a].state == Idle
      && after == before[a := before[a].(state := Assigned, task := t.id, priority := t.priority)]
    }

    /** The loop is not waiting after an error. */
    ghost predicate Due(now: Time)
      reads this`nextAssignAttempt
    {
      nextAssignAttempt.None? || nextAssignAttempt.value <= now
    }

    /** The agent's record can be read and written back. */
    ghost predicate Writable(a: AgentId)
      reads store`getAgentFieldsErr, store`setAgentFieldsErr, store`getAgentFieldsByAgent, store`setAgentFieldsByAgent
    {
      && store.getAgentFieldsErr.None? && a !in store.getAgentFieldsByAgent
      && store.setAgentFieldsErr.None? && a !in store.setAgentFieldsByAgent
    }

    /**
     One tick of the assignment loop.  A due tick takes the head of the queue, and `picked`
     is the agent findIdleAgent finds for it.  The task is bound exactly if this agent is
     registered, its transition goes through and its record can be written; otherwise it
     is back in the queue, unless the store refused to take it back.  The loop backs off
     exactly after a failed dequeue, a refused transition or a failed binding; an empty
     queue, no idle agent or an unregistered one are no errors.
     */
    method TryAssignTask(now: Time) returns (bound: Option<AgentId>, picked: Option<AgentId>)
      requires Valid()
      modifies this`consecutiveAssignErrors, this`nextAssignAttempt
      modifies store`agents, store`queue, store`streamEvents, store`streamSeq
      ensures Valid()
      ensures picked.Some? <==> old(Due(now)) && store.dequeueTaskErr.None? && old(store.queue) != []
                                && exists a :: old(Assignable(a, now))
      ensures picked.Some? ==> old(Assignable(picked.value, now))
      ensures bound == if picked.Some? && picked.value in agentMu && store.compareAndSetErr.None?
                          && Writable(picked.value) then picked else None
      ensures bound.Some? ==>
                && store.queue == old(store.queue)[1..]
                && BoundTo(old(store.agents), store.agents, bound.value, old(store.queue)[0])
      ensures bound.None? ==>
                if !old(Due(now)) || store.dequeueTaskErr.Some? || old(store.queue) == []
                then store.queue == old(store.queue)
                else if store.enqueueTaskErr.Some? then store.queue == old(store.queue)[1..]
                else Enqueued(old(store.queue)[1..], old(store.queue)[0], store.queue)
      ensures bound.None? ==>
                store.agents == if picked.Some? && picked.value in agentMu && store.compareAndSetErr.None?
                                then old(store.agents)[picked.value :=
                                       old(store.agents)[picked.value].(state := Assigned)]
                                else old(store.agents)
      ensures if bound.Some? then consecutiveAssignErrors == 0 && nextAssignAttempt.None?
              else if old(Due(now))
                      && (store.dequeueTaskErr.Some? || (picked.Some? && picked.value in agentMu))
              then BackedOff(old(consecutiveAssignErrors) + 1, now)
              else consecutiveAssignErrors == old(consecutiveAssignErrors)
                   && nextAssignAttempt == old(nextAssignAttempt)
      ensures store.streamEvents ==
              if picked.Some? && picked.value in agentMu && store.compareAndSetErr.None?
              then Logged(old(store.streamEvents), "task_assigned", picked.value, old(store.queue)[0].id, now)
              else old(store.streamEvents)
      ensures && Healthy() && old(store.queue) != [] && store.agents.Keys <= agentMu
              && (old(nextAssignAttempt).None? || old(nextAssignAttempt).value <= now)
              && (exists a :: old(Assignable(a, now)))
              ==> bound.Some?
    {
      bound, picked := None, None;
      var head := TakeHead(now);
      if head.None? {
        return;
      }
      var t := head.value;
      picked := FindIdleAgent(now);
      assert forall a :: old(Assignable(a, now)) ==> Assignable(a, now);
      if picked.None? || picked.value !in agentMu {
        Requeue(t);
        return;
      }
      bound := Assign(picked.value, t, now);
    }

    /** The beginning of a tick: the head of the queue, if the tick is due and there is one. */
    method TakeHead(now: Time) returns (head: Option<Task>)
      requires Valid()
      modifies this`consecutiveAssignErrors, this`nextAssignAttempt, store`queue
      ensures Valid()
      ensures head.Some? <==> old(Due(now)) && store.dequeueTaskErr.None? && old(store.queue) != []
      ensures head.Some? ==> old(store.queue) == [head.value] + store.queue
      ensures head.None? ==> store.queue == old(store.queue)
      ensures if old(Due(now)) && store.dequeueTaskErr.Some? then BackedOff(old(consecutiveAssignErrors) + 1, now)
              else consecutiveAssignErrors == old(consecutiveAssignErrors)
                   && nextAssignAttempt == old(nextAssignAttempt)
    {
      if nextAssignAttempt.Some? && now < nextAssignAttempt.value {
        return None;
      }
      var dequeued := store.DequeueTask();
      if dequeued.Err? {
        if dequeued.error != QueueEmpty {
          RecordAssignError(now);
        }
        return None;
      }
      head := Some(dequeued.value);
    }

    /** What the RPCs and the heartbeat loop do between two ticks. */
    method OthersRun()
      requires Valid() && Completion.Sound(registry.View())
      modifies this`agentMu, this`stopped, this`agentCooldown, this`circuitOpen, policy, registry
      modifies store`agents, store`queue, store`streamEvents, store`streamSeq
      ensures Valid() && Completion.Sound(registry.View())
    {
      var steps: nat := *;
      while steps > 0
        invariant Valid() && Completion.Sound(registry.View())
        decreases steps
      {
        var a: AgentId, t: Task, now: Time := *, *, *;
        if * {
          Requeue(t);
        } else if * {
          var _ := RegisterAgent(a, now);
        } else if * {
          var _ := Heartbeat(a, now);
        } else if * {
          var _ := Advance(a, WorkStarted, now);
        } else if * {
          var _ := Advance(a, OutputReady, now);
        } else if * {
          CheckHeartbeats(now, now);
        } else {
          var _ := CompleteAgent(a, t.id, now);
        }
        steps := steps - 1;
      }
    }

    ghost predicate NoBackOff()
      reads this`consecutiveAssignErrors, this`nextAssignAttempt
    {
      consecutiveAssignErrors == 0 && nextAssignAttempt.None?
    }

    /** A tick, and what happens before the next one. */
    method Tick(now: Time)
      requires Valid() && Completion.Sound(registry.View())
      modifies this, policy, registry
      modifies store`agents, store`queue, store`streamEvents, store`streamSeq
      ensures Valid() && Completion.Sound(registry.View())
      ensures Healthy() && old(NoBackOff()) ==> NoBackOff()
    {
      var _, _ := TryAssignTask(now);
      OthersRun();
    }

    /**
     The ticks of the assignment loop, with anything going on in between.  On a healthy
     store it never starts to back off, whether there are tasks, agents or neither.
     */
    method TaskAssignLoop(ticks: seq<Time>)
      requires Valid() && Completion.Sound(registry.View())
      modifies this, policy, registry
      modifies store`agents, store`queue, store`streamEvents, store`streamSeq
      ensures Valid() && Completion.Sound(registry.View())
      ensures Healthy() && old(NoBackOff()) ==> NoBackOff()
    {
      var i := 0;
      while i < |ticks|
        invariant 0 <= i <= |ticks| && Valid() && Completion.Sound(registry.View())
        invariant Healthy() && old(NoBackOff()) ==> NoBackOff()
      {
        Tick(ticks[i]);
        i := i + 1;
      }
    }

    /** tryAssignTask with the agent's mutex held: transition, then binding. */
    method Assign(a: AgentId, t: Task, now: Time) returns (bound: Option<AgentId>)
      requires Valid() && a in store.agents && store.agents[a].state == Idle
      modifies this`consecutiveAssignErrors, this`nextAssignAttempt
      modifies store`agents, store`queue, store`streamEvents, store`streamSeq
      ensures Valid()
      ensures bound == if store.compareAndSetErr.None? && Writable(a) then Some(a) else None
      ensures bound.Some? ==> store.queue == old(store.queue) && BoundTo(old(store.agents), store.agents, a, t)
      ensures bound.None? && store.enqueueTaskErr.None? ==> Enqueued(old(store.queue), t, store.queue)
      ensures bound.None? && store.enqueueTaskErr.Some? ==> store.queue == old(store.queue)
      ensures bound.None? ==>
                store.agents == if store.compareAndSetErr.Some? then old(store.agents)
                                else old(store.agents)[a := old(store.agents)[a].(state := Assigned)]
      ensures if bound.Some? then consecutiveAssignErrors == 0 && nextAssignAttempt.None?
              else BackedOff(old(consecutiveAssignErrors) + 1, now)
      ensures store.streamEvents == if store.compareAndSetErr.Some? then old(store.streamEvents)
                                    else Logged(old(store.streamEvents), "task_assigned", a, t.id, now)
      ensures Healthy() ==> bound.Some?
    {
      bound := None;
      var applied := machine.ApplyEvent(a, TaskAssigned);
      if applied.Err? {
        Requeue(t);
        if !(applied.error.Store? && applied.error.error.StateConflict?) {
          RecordAssignError(now);
        }
        return;
      }
      var bindOk := Bind(a, t);
      if bindOk {
        consecutiveAssignErrors, nextAssignAttempt := 0, None;
        bound := Some(a);
      } else {
        Requeue(t);
        RecordAssignError(now);
      }
      Publish("task_assigned", a, t.id, now);
    }

    /** Records the task with the agent, if the record can be read and written. */
    method Bind(a: AgentId, t: Task) returns (ok: bool)
      requires a in store.agents
      modifies store`agents
      ensures store.agents ==
              if ok then old(store.agents)[a := old(store.agents)[a].(task := t.id, priority := t.priority)]
              else old(store.agents)
      ensures ok <==> Writable(a)
    {
      var cur := store.GetAgentFields(a);
      if cur.Err? {
        return false;
      }
      var written := store.SetAgentFields(a, cur.value.(task := t.id, priority := t.priority));
      ok := written.Ok?;
    }

    // -------------------------------------------------------------- crash

    /** What the crash of a busy agent leaves in the cooldown map, `cool` without its own entry, and in the circuit. */
    ghost predicate Excluded(a: AgentId, d: Decision, later: Time, cool: map<AgentId, Time>, circuit: set<AgentId>)
      reads this`agentCooldown, this`circuitOpen
    {
      if !d.shouldRestart then circuitOpen == circuit + {a} && agentCooldown == cool
      else
        && circuitOpen == circuit
        && agentCooldown == if d.backoff > 0 then cool[a := later + d.backoff] else cool
    }

    /** The task of the record is back in the queue, unless there was none or the store refused it. */
    ghost predicate Requeued(before: seq<Task>, after: seq<Task>, f: Fields)
      reads store
    {
      if f.task == "" || store.enqueueTaskErr.Some? then after == before
      else Enqueued(before, Task(f.task, f.priority), after)
    }

    /** GetAgentFields answers for the agent. */
    ghost predicate Readable(a: AgentId)
      reads store`getAgentFieldsErr, store`getAgentFieldsByAgent, store`agents
    {
      store.getAgentFieldsErr.None? && a !in store.getAgentFieldsByAgent && a in store.agents
    }

    /**
     A busy agent goes idle, its task goes back to the queue at its old priority, and the
     policy's decision excludes it; its record keeps the task id.  A crash of an idle agent
     is spurious and only drops its cooldown.
     */
    method CrashAgent(a: AgentId, now: Time, later: Time) returns (crashed: bool)
      requires Valid()
      modifies this`agentCooldown, this`circuitOpen, policy
      modifies store`agents, store`queue, store`streamEvents, store`streamSeq
      ensures Valid()
      ensures crashed ==>
                && a in agentMu && a in old(store.agents) && Busy(old(store.agents)[a].state)
                && store.agents == old(store.agents)[a := old(store.agents)[a].(state := Idle)]
                && Requeued(old(store.queue), store.queue, old(store.agents)[a])
                && var (p, d) := Restart.Crashed(policy.config, old(policy.View()), a, later);
                && policy.View() == p && Excluded(a, d, later, old(agentCooldown) - {a}, old(circuitOpen))
                && store.streamEvents == Logged(old(store.streamEvents), "agent_failed", a, "", now)
      ensures !crashed ==>
                && store.agents == old(store.agents) && store.queue == old(store.queue)
                && store.streamEvents == old(store.streamEvents)
                && policy.View() == old(policy.View()) && circuitOpen == old(circuitOpen)
                && agentCooldown == if a in agentMu && Readable(a) then old(agentCooldown) - {a} else old(agentCooldown)
      ensures crashed <==> a in agentMu && Readable(a) && store.compareAndSetErr.None?
                           && Busy(old(store.agents)[a].state) && !old(store.agents)[a].state.Unrecognised?
      ensures && Healthy() && a in agentMu && a in old(store.agents) && Busy(old(store.agents)[a].state)
              && !old(store.agents)[a].state.Unrecognised?
              ==> crashed
    {
      crashed := false;
      if a !in agentMu {
        return;
      }
      var pre := store.GetAgentFields(a);
      if pre.Err? {
        return;
      }
      crashed := Fail(a, now);
      if crashed {
        assert agentCooldown - {a} == old(agentCooldown) - {a};
        FinishCrash(a, pre.value, now, later);
      }
    }

    /** The sentinel and the transition; both are undone where the agent cannot fail or was idle already. */
    method Fail(a: AgentId, now: Time) returns (failed: bool)
      requires Valid() && a in store.agents
      modifies this`agentCooldown, store`agents
      ensures failed ==>
                && Busy(old(store.agents)[a].state)
                && store.agents == old(store.agents)[a := old(store.agents)[a].(state := Idle)]
                && agentCooldown == old(agentCooldown)[a := now + SENTINEL]
      ensures !failed ==> store.agents == old(store.agents) && agentCooldown == old(agentCooldown) - {a}
      ensures failed <==> store.compareAndSetErr.None? && Busy(old(store.agents)[a].state)
                          && !old(store.agents)[a].state.Unrecognised?
    {
      agentCooldown := agentCooldown[a := now + SENTINEL];
      var applied := machine.ApplyEvent(a, AgentFailed);
      failed := applied.Ok? && applied.value.previous != Idle;
      if !failed {
        agentCooldown := agentCooldown - {a};
        assert store.agents == old(store.agents);
      }
    }

    /** The agent is idle again: its task returns to the queue and the policy decides. */
    method FinishCrash(a: AgentId, pre: Fields, now: Time, later: Time)
      requires store.Valid()
      modifies this`agentCooldown, this`circuitOpen, policy
      modifies store`queue, store`streamEvents, store`streamSeq
      ensures store.Valid()
      ensures Requeued(old(store.queue), store.queue, pre)
      ensures store.streamEvents == Logged(old(store.streamEvents), "agent_failed", a, "", now)
      ensures policy.View() == Restart.Crashed(policy.config, old(policy.View()), a, later).0
      ensures Excluded(a, Restart.Crashed(policy.config, old(policy.View()), a, later).1, later,
                       old(agentCooldown) - {a}, old(circuitOpen))
    {
      Publish("agent_failed", a, "", now);
      if pre.task != "" {
        Requeue(Task(pre.task, pre.priority));
      }
      var decision := policy.RecordCrash(a, later);
      Exclude(a, decision, later);
    }

    /** The last critical section of a crash. */
    method Exclude(a: AgentId, d: Decision, later: Time)
      modifies this`agentCooldown, this`circuitOpen
      ensures Excluded(a, d, later, old(agentCooldown) - {a}, old(circuitOpen))
    {
      if !d.shouldRestart {
        circuitOpen := circuitOpen + {a};
        agentCooldown := agentCooldown - {a};
      } else if d.backoff > 0 {
        agentCooldown := agentCooldown[a := later + d.backoff];
      } else {
        agentCooldown := agentCooldown - {a};
      }
    }

    ghost function SweepSetup(): Setup
      reads `agentMu, store`compareAndSetErr, store`enqueueTaskErr, store`getAgentFieldsErr, store`getAgentFieldsByAgent
    {
      Setup(agentMu, staleMillis, policy.config, store.getAgentFieldsErr, store.getAgentFieldsByAgent,
            store.compareAndSetErr, store.enqueueTaskErr)
    }

    ghost function SweepBooks(): Books
      reads `agentCooldown, `circuitOpen, policy, store`agents, store`queue, store`streamEvents
    {
      Books(store.agents, store.queue, store.streamEvents, agentCooldown, circuitOpen, policy.View())
    }

    /**
     One sweep of the heartbeat loop.  Every agent that is dead, silent for too long with a
     transition that goes through, is idle, its task is back in the queue, and its crash is
     with the policy, whose decision is in force; every other agent keeps all of that.  On
     a healthy store the dead are the registered agents that are overdue with a recognised
     state, so that none of those is left.
     */
    method CheckHeartbeats(now: Time, later: Time)
      requires Valid()
      modifies this`agentCooldown, this`circuitOpen, policy
      modifies store`agents, store`queue, store`streamEvents, store`streamSeq
      ensures Valid()
      ensures Swept(SweepSetup(), old(SweepBooks()), SweepBooks(), old(store.agents).Keys, now, later)
      ensures store.agents.Keys == old(store.agents).Keys
      ensures Healthy() ==> forall a :: Dead(SweepSetup(), old(SweepBooks()), a, now)
                                        <==> Lost(SweepSetup(), old(SweepBooks()), a, now)
      ensures Healthy() ==> forall a :: !Lost(SweepSetup(), SweepBooks(), a, now)
    {
      var agents := store.ListAgents();
      ghost var u, b := SweepSetup(), SweepBooks();
      CheckAgents(agents, now, later);
      SweptRecords(u, b, SweepBooks(), now, later);
    }

    /** The loop over the listed agents. */
    method CheckAgents(agents: seq<AgentId>, now: Time, later: Time)
      requires Valid() && Listing(agents, store.agents)
      requires forall i, j :: 0 <= i < j < |agents| ==> agents[i] != agents[j]
      modifies this`agentCooldown, this`circuitOpen, policy
      modifies store`agents, store`queue, store`streamEvents, store`streamSeq
      ensures Valid() && Swept(SweepSetup(), old(SweepBooks()), SweepBooks(), old(store.agents).Keys, now, later)
    {
      var i := 0;
      ghost var u, b, done := SweepSetup(), SweepBooks(), {};
      NothingSwept(u, b, now, later);
      while i < |agents|
        invariant 0 <= i <= |agents| && Valid()
        invariant done <= b.agents.Keys && forall j :: 0 <= j < |agents| ==> (agents[j] in done <==> j < i)
        invariant Swept(u, b, SweepBooks(), done, now, later)
      {
        assert agents[i] in b.agents;
        CheckNext(agents[i], now, later, u, b, done);
        done := done + {agents[i]};
        i := i + 1;
      }
      assert done == b.agents.Keys;
    }

    /** The next agent of a sweep that began with the books `b`. */
    method CheckNext(a: AgentId, now: Time, later: Time, ghost u: Setup, ghost b: Books, ghost done: set<AgentId>)
      requires Valid() && u == SweepSetup() && a in b.agents && a !in done
      requires Swept(u, b, SweepBooks(), done, now, later)
      modifies this`agentCooldown, this`circuitOpen, policy
      modifies store`agents, store`queue, store`streamEvents, store`streamSeq
      ensures Valid() && Swept(u, b, SweepBooks(), done + {a}, now, later)
    {
      ghost var mid := SweepBooks();
      assert SameAgent(b, mid, a);
      CheckOne(a, now, later);
      NextSwept(u, b, mid, SweepBooks(), done, a, now, later);
    }

    /** Crashes the agent if it is overdue. */
    method CheckOne(a: AgentId, now: Time, later: Time)
      requires Valid() && a in store.agents
      modifies this`agentCooldown, this`circuitOpen, policy
      modifies store`agents, store`queue, store`streamEvents, store`streamSeq
      ensures Valid()
      ensures Swept(SweepSetup(), old(SweepBooks()), SweepBooks(), {a}, now, later)
    {
      ghost var u, b := SweepSetup(), SweepBooks();
      var fields := store.GetAgentFields(a);
      if fields.Err? || !Busy(fields.value.state) || Millis(now) - fields.value.lastHeartbeat <= staleMillis {
        LeftAlone(u, b, a, now, later);
        return;
      }
      var crashed := CrashAgent(a, now, later);
      if crashed {
        CrashSweeps(u, b, SweepBooks(), a, now, later);
      } else {
        SpuriousSweeps(u, b, SweepBooks(), a, now, later);
      }
    }

    // -------------------------------------------------------------- completion

    /** Tells the registry which task is done: the store's, or the caller's where the store has none to offer. */
    method SignalCompletion(a: AgentId, claimed: TaskId, now: Time)
      requires Completion.Sound(registry.View()) && a in store.agents
      modifies registry
      ensures Completion.Sound(registry.View())
      ensures var readable := a !in store.getAgentFieldsByAgent && store.getAgentFieldsErr.None?;
              var signal := if readable then SignalFor(claimed, store.agents[a].task) else claimed;
              registry.View() == if signal == "" then old(registry.View())
                                 else Completion.Completed(old(registry.View()), signal, now)
    {
      var tid := claimed;
      var fields := store.GetAgentFields(a);
      if fields.Ok? && fields.value.task != "" {
        tid := fields.value.task;
      }
      if tid != "" {
        registry.Complete(tid, now);
      }
    }

    /**
     The agent's output is delivered: it goes idle with no task, the policy forgets its
     crashes, its exclusions end, and the registry is told the id the store had bound,
     or the caller's if the store had none or could not be read.
     */
    method CompleteAgent(a: AgentId, claimed: TaskId, now: Time) returns (r: Result<(), Failure>)
      requires Valid() && Completion.Sound(registry.View())
      modifies this`agentCooldown, this`circuitOpen, policy, registry
      modifies store`agents, store`streamEvents, store`streamSeq
      ensures Valid() && Completion.Sound(registry.View())
      ensures store.streamEvents == if r.Ok? then Logged(old(store.streamEvents), "output_delivered", a, "", now)
                                    else old(store.streamEvents)
      ensures r.Err? ==> store.agents == old(store.agents) && registry.View() == old(registry.View())
                         && policy.View() == old(policy.View())
                         && agentCooldown == old(agentCooldown) && circuitOpen == old(circuitOpen)
      ensures r.Ok? <==> a in agentMu && a in old(store.agents) && old(store.agents)[a].state == Reporting
                         && store.compareAndSetErr.None?
      ensures r.Ok? ==>
                && var f := old(store.agents)[a];
                && store.agents == old(store.agents)[a := if store.clearCurrentTaskErr.Some? then f.(state := Idle)
                                                          else f.(state := Idle, task := "", priority := 0.0)]
                && policy.View() == Restart.Succeeded(old(policy.View()), a)
                && agentCooldown == old(agentCooldown) - {a} && circuitOpen == old(circuitOpen) - {a}
      ensures r.Ok? ==>
                && var readable := a !in store.getAgentFieldsByAgent && store.getAgentFieldsErr.None?;
                && var signal := if readable then SignalFor(claimed, old(store.agents)[a].task) else claimed;
                && registry.View() == if signal == "" then old(registry.View())
                                      else Completion.Completed(old(registry.View()), signal, now)
    {
      if a !in agentMu {
        return Err(Stopped);
      }
      var applied := Deliver(a, now);
      if applied.Err? {
        return Err(Transition(applied.error));
      }
      SignalCompletion(a, claimed, now);
      Release(a);
      r := Ok(());
    }

    /** The transition out of REPORTING, and what is published and recorded about it. */
    method Deliver(a: AgentId, now: Time) returns (r: Result<AgentSnapshot, TransitionError>)
      requires Valid()
      modifies policy
      modifies store`agents, store`streamEvents, store`streamSeq
      ensures Valid()
      ensures r.Ok? <==>
                a in old(store.agents) && old(store.agents)[a].state == Reporting && store.compareAndSetErr.None?
      ensures r.Ok? ==> store.agents == old(store.agents)[a := old(store.agents)[a].(state := Idle)]
                        && policy.View() == Restart.Succeeded(old(policy.View()), a)
      ensures r.Err? ==> store.agents == old(store.agents) && policy.View() == old(policy.View())
      ensures store.streamEvents == if r.Ok? then Logged(old(store.streamEvents), "output_delivered", a, "", now)
                                    else old(store.streamEvents)
    {
      r := machine.ApplyEvent(a, OutputDelivered);
      if r.Ok? {
        Publish("output_delivered", a, "", now);
        policy.RecordSuccess(a);
      }
    }

    /** The binding is cleared and every exclusion ends. */
    method Release(a: AgentId)
      requires a in store.agents
      modifies this`agentCooldown, this`circuitOpen, store`agents
      ensures store.agents == if store.clearCurrentTaskErr.Some? then old(store.agents)
                              else old(store.agents)[a := old(store.agents)[a].(task := "", priority := 0.0)]
      ensures agentCooldown == old(agentCooldown) - {a} && circuitOpen == old(circuitOpen) - {a}
    {
      var _ := store.ClearCurrentTask(a);
      agentCooldown := agentCooldown - {a};
      circuitOpen := circuitOpen - {a};
    }
  }
}
