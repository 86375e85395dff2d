/**
 Stretches of supervisor runs with a single agent, from which concrete runs are
 put together: its registration, an assignment, StartWork, ReportOutput and the
 delivery up to its signal.  Each lemma prolongs a quiet path from some origin `o`
 and says where the path has come to, so that the next stretch can go on from
 there.  The heartbeat loop is at rest on these paths, no store call fails and the
 clock stands still.
 */
module SupervisorScripts {
  import opened Types
  import opened Agent
  import opened SupervisorSystem
  import opened SupervisorPaths

  const A: AgentId := "a"
  const NO_HISTORY: History := History(multiset{}, multiset{}, multiset{}, multiset{})

  /** Nobody has registered yet. */
  function Unregistered(queue: seq<Task>): Shared {
    Shared(map[], queue, {}, map[], map[], {}, 0, 0, {}, map[])
  }

  function Record(state: AgentState, task: TaskId, priority: real): Fields {
    Fields(state, 0, task, priority, 0)
  }

  /** The agent is registered and nothing is locked. */
  function World(f: Fields, queue: seq<Task>, now: Time): Shared {
    Shared(map[A := f], queue, {A}, map[], map[], {}, now, 0, {A}, map[])
  }

  /** The heartbeat loop is at rest, and so are all RPCs but `calls`. */
  function Busied(h: Shared, assign: AssignPc, calls: map<nat, Call>, hist: History): State {
    State(h, assign, Waiting, calls, hist)
  }

  /** The system with every thread but the assignment loop at rest. */
  function Resting(h: Shared, assign: AssignPc, hist: History): State {
    Busied(h, assign, map[], hist)
  }

  lemma Registers(o: State, queue: seq<Task>, calls: map<nat, Call>, hist: History)
    requires 0 !in calls && Leads(o, Busied(Unregistered(queue), Ready, calls, hist), false)
    ensures Leads(o, Busied(World(Record(Idle, "", 0.0), queue, 0), Ready, calls, hist), false)
  {
    var s0 := Busied(Unregistered(queue), Ready, calls, hist);
    var s1 := s0.(sh := s0.sh.(issued := {A}), calls := calls[0 := Register(A, RStore)]);
    On(o, s0, s1, Arriver(0, Register(A, RStore)), false);
    var s2 := s1.(sh := s1.sh.(agents := map[A := Record(Idle, "", 0.0)]), calls := calls[0 := Register(A, RMutex)]);
    On(o, s1, s2, Caller(0), false);
    var s3 := s2.(sh := s2.sh.(mutexes := {A}), calls := calls);
    assert s2.calls - {0} == calls;
    On(o, s2, s3, Caller(0), false);
  }

  /** The assignment loop picks the agent: from the dequeue to the mutex lookup. */
  lemma Picks(o: State, h: Shared, t: Task, rest: seq<Task>, calls: map<nat, Call>, hist: History)
    requires h.queue == [t] + rest && h.agents.Keys == {A} && h.agents[A].state == Idle && h.circuit == {}
    requires h.mutexes == {A} && !Cooling(h.cooldown, A, h.now)
    requires Leads(o, Busied(h, Ready, calls, hist), false)
    ensures Leads(o, Busied(h.(queue := rest), Binding(t, A, Lock), calls, hist), false)
  {
    assert h.queue[0] == t && h.queue[1..] == rest && [A][1..] == [];
    var s0 := Busied(h, Ready, calls, hist);
    var s1 := s0.(sh := h.(queue := rest), assign := Finding(t, List));
    On(o, s0, s1, Assigner, false);
    var s2 := s1.(assign := Finding(t, Copy([A])));
    On(o, s1, s2, Assigner, false);
    var s3 := s2.(assign := Finding(t, ReadClock([A], h.cooldown, h.circuit)));
    On(o, s2, s3, Assigner, false);
    var snap := Snapshot(h.cooldown, h.circuit, h.now);
    var s4 := s3.(assign := Finding(t, Scan([A], snap)));
    On(o, s3, s4, Assigner, false);
    var s5 := s4.(assign := Finding(t, Recheck(A, [], snap)));
    On(o, s4, s5, Assigner, false);
    var s6 := s5.(assign := Binding(t, A, Mutex));
    On(o, s5, s6, Assigner, false);
    var s7 := s6.(assign := Binding(t, A, Lock));
    On(o, s6, s7, Assigner, false);
  }

  /** With the mutex free it goes on to the transition. */
  lemma Moves(o: State, h: Shared, t: Task, calls: map<nat, Call>, hist: History)
    requires h.agents.Keys == {A} && h.agents[A].state == Idle && h.holder == map[]
    requires Leads(o, Busied(h, Binding(t, A, Lock), calls, hist), false)
    ensures Leads(o, Busied(Move(h, A, Assigned).(holder := map[A := AssignLoop]), Binding(t, A, GetFields),
                            calls, hist), false)
  {
    var s0 := Busied(h, Binding(t, A, Lock), calls, hist);
    var s1 := s0.(sh := h.(holder := map[A := AssignLoop]), assign := Binding(t, A, Read));
    On(o, s0, s1, Assigner, false);
    var s2 := s1.(assign := Binding(t, A, Cas(Idle)));
    On(o, s1, s2, Assigner, false);
    var s3 := s2.(sh := Move(s2.sh, A, Assigned), assign := Binding(t, A, GetFields));
    On(o, s2, s3, Assigner, false);
  }

  /** A fresh agent is given the head of the queue. */
  lemma Assigns(o: State, t: Task, rest: seq<Task>, calls: map<nat, Call>, hist: History)
    requires Leads(o, Busied(World(Record(Idle, "", 0.0), [t] + rest, 0), Ready, calls, hist), false)
    ensures Leads(o, Busied(World(Record(Assigned, t.id, t.priority), rest, 0), Ready, calls, hist), false)
  {
    var h := World(Record(Idle, "", 0.0), [t] + rest, 0);
    Picks(o, h, t, rest, calls, hist);
    Moves(o, h.(queue := rest), t, calls, hist);
    var h1 := World(Record(Assigned, "", 0.0), rest, 0).(holder := map[A := AssignLoop]);
    assert Move(h.(queue := rest), A, Assigned).(holder := map[A := AssignLoop]) == h1;
    var s0 := Busied(h1, Binding(t, A, GetFields), calls, hist);
    var s1 := s0.(assign := Binding(t, A, SetFields(Record(Assigned, "", 0.0))));
    On(o, s0, s1, Assigner, false);
    var s2 := s1.(sh := h1.(agents := map[A := Record(Assigned, t.id, t.priority)]), assign := Unlocking(A));
    On(o, s1, s2, Assigner, false);
    var s3 := s2.(sh := World(Record(Assigned, t.id, t.priority), rest, 0), assign := Ready);
    On(o, s2, s3, Assigner, false);
  }

  /** StartWork or ReportOutput, up to its read under the mutex. */
  lemma StartsWork(o: State, f: Fields, event: AgentEvent, queue: seq<Task>, hist: History)
    requires event == WorkStarted || event == OutputReady
    requires Leads(o, Resting(World(f, queue, 0), Ready, hist), false)
    ensures Leads(o, State(World(f, queue, 0).(holder := map[A := Rpc(0)]), Ready, Waiting,
                           map[0 := Work(A, event, WRead(true))], hist), false)
  {
    var s0 := Resting(World(f, queue, 0), Ready, hist);
    var s1 := s0.(calls := map[0 := Work(A, event, WMutex)]);
    On(o, s0, s1, Arriver(0, Work(A, event, WMutex)), false);
    var s2 := s1.(calls := map[0 := Work(A, event, WLock)]);
    On(o, s1, s2, Caller(0), false);
    var s3 := s2.(calls := map[0 := Work(A, event, WRead(true))], sh := s2.sh.(holder := map[A := Rpc(0)]));
    On(o, s2, s3, Caller(0), false);
  }

  /** StartWork or ReportOutput with its transition made. */
  lemma MakesTransition(o: State, f: Fields, event: AgentEvent, next: AgentState, queue: seq<Task>, hist: History)
    requires (event == WorkStarted || event == OutputReady) && NextState(f.state, event) == Some(next)
    requires Leads(o, Resting(World(f, queue, 0), Ready, hist), false)
    ensures Leads(o, State(World(f.(state := next), queue, 0).(holder := map[A := Rpc(0)]), Ready, Waiting,
                           map[0 := Work(A, event, WUnlock)], hist), false)
  {
    StartsWork(o, f, event, queue, hist);
    var s3 := State(World(f, queue, 0).(holder := map[A := Rpc(0)]), Ready, Waiting,
                    map[0 := Work(A, event, WRead(true))], hist);
    var s4 := s3.(calls := map[0 := Work(A, event, WCas(true, f.state))]);
    On(o, s3, s4, Caller(0), false);
    var s5 := s4.(calls := map[0 := Work(A, event, WUnlock)], sh := s4.sh.(agents := map[A := f.(state := next)]));
    On(o, s4, s5, Caller(0), false);
  }

  /** StartWork or ReportOutput, from arrival to return. */
  lemma Progresses(o: State, f: Fields, event: AgentEvent, next: AgentState, queue: seq<Task>, hist: History)
    requires (event == WorkStarted || event == OutputReady) && NextState(f.state, event) == Some(next)
    requires Leads(o, Resting(World(f, queue, 0), Ready, hist), false)
    ensures Leads(o, Resting(World(f.(state := next), queue, 0), Ready, hist), false)
  {
    MakesTransition(o, f, event, next, queue, hist);
    var s5 := State(World(f.(state := next), queue, 0).(holder := map[A := Rpc(0)]), Ready, Waiting,
                    map[0 := Work(A, event, WUnlock)], hist);
    On(o, s5, Resting(World(f.(state := next), queue, 0), Ready, hist), Caller(0), false);
  }

  /** What an agent delivers is recorded only if its record binds a task. */
  function Delivering(hist: History, f: Fields): History {
    hist.(delivered := hist.delivered + Bound(f))
  }

  /** completeAgent, up to its read under the mutex. */
  lemma StartsDelivery(o: State, f: Fields, claimed: TaskId, queue: seq<Task>, hist: History)
    requires Leads(o, Resting(World(f, queue, 0), Ready, hist), false)
    ensures Leads(o, State(World(f, queue, 0).(holder := map[A := Rpc(0)]), Ready, Waiting,
                           map[0 := Done(A, claimed, DRead)], hist), false)
  {
    var s0 := Resting(World(f, queue, 0), Ready, hist);
    var s1 := s0.(calls := map[0 := Done(A, claimed, DMutex)]);
    On(o, s0, s1, Arriver(0, Done(A, claimed, DMutex)), false);
    var s2 := s1.(calls := map[0 := Done(A, claimed, DLock)]);
    On(o, s1, s2, Caller(0), false);
    var s3 := s2.(calls := map[0 := Done(A, claimed, DRead)], sh := s2.sh.(holder := map[A := Rpc(0)]));
    On(o, s2, s3, Caller(0), false);
  }

  /** completeAgent about to signal, after the delivery of an agent with record `f`. */
  function Signalling(f: Fields, claimed: TaskId, queue: seq<Task>, hist: History): State {
    State(World(f.(state := Idle), queue, 0).(holder := map[A := Rpc(0)]), Ready, Waiting,
          map[0 := Done(A, claimed, DSignal(Task(f.task, f.priority), SignalFor(claimed, f.task)))],
          Delivering(hist, f))
  }

  /** completeAgent, up to the signal it is about to send. */
  lemma Delivers(o: State, f: Fields, claimed: TaskId, queue: seq<Task>, hist: History)
    requires f.state == Reporting
    requires Leads(o, Resting(World(f, queue, 0), Ready, hist), false)
    ensures Leads(o, Signalling(f, claimed, queue, hist), false)
  {
    StartsDelivery(o, f, claimed, queue, hist);
    var s3 := State(World(f, queue, 0).(holder := map[A := Rpc(0)]), Ready, Waiting,
                    map[0 := Done(A, claimed, DRead)], hist);
    var s4 := s3.(calls := map[0 := Done(A, claimed, DCas(Reporting))]);
    On(o, s3, s4, Caller(0), false);
    var s5 := s4.(calls := map[0 := Done(A, claimed, DFields(Task(f.task, f.priority)))],
                  sh := s4.sh.(agents := map[A := f.(state := Idle)]), hist := Delivering(hist, f));
    On(o, s4, s5, Caller(0), false);
    On(o, s5, Signalling(f, claimed, queue, hist), Caller(0), false);
  }

  /** From registration to the signal: an agent works on the head of the queue and delivers it. */
  lemma WorksThrough(o: State, t: Task, rest: seq<Task>, claimed: TaskId, hist: History)
    requires Leads(o, Resting(Unregistered([t] + rest), Ready, hist), false)
    ensures Leads(o, Signalling(Record(Reporting, t.id, t.priority), claimed, rest, hist), false)
  {
    Registers(o, [t] + rest, map[], hist);
    Assigns(o, t, rest, map[], hist);
    Progresses(o, Record(Assigned, t.id, t.priority), WorkStarted, Working, rest, hist);
    Progresses(o, Record(Working, t.id, t.priority), OutputReady, Reporting, rest, hist);
    Delivers(o, Record(Reporting, t.id, t.priority), claimed, rest, hist);
  }
}
