/**
 Which state histories the whole supervisor produces.  Transitions go by
 compare-and-set, but Heartbeat and the task binding write whole records back,
 with the state they read.  The agent's mutex keeps that state current, except
 against StartWork and ReportOutput on their path without a mutex.
 */
module StateHistories {
  import opened Types
  import opened Agent
  import opened SupervisorSystem
  import opened SupervisorInvariant
  import opened SupervisorPaths
  import opened SupervisorScripts

  /** The state is kept, or changed as the transition table allows. */
  ghost predicate Follows(x: AgentState, y: AgentState) {
    x == y || exists e :: ValidTransition(x, e) == Some(y)
  }

  /** The call is between read and compare-and-set on the path without a mutex. */
  predicate Bypass(c: Call, a: AgentId) {
    c.Work? && c.agent == a && c.work.WCas? && !c.work.locked
  }

  ghost predicate Bypassed(s: State, a: AgentId) {
    exists tid :: tid in s.calls && Bypass(s.calls[tid], a)
  }

  /** `x` was read when the agent was not further than it is now at `y`. */
  predicate Lags(x: AgentState, y: AgentState) {
    x == y || (x.Assigned? && (y.Working? || y.Reporting?)) || (x.Working? && y.Reporting?)
  }

  /** The record that the assignment loop is about to write back. */
  predicate AssignLags(s: State, exact: bool) {
    s.assign.Binding? && s.assign.bind.SetFields? ==>
      && s.assign.agent in s.sh.agents
      && Lags(s.assign.bind.cur.state, s.sh.agents[s.assign.agent].state)
      && (exact ==> s.assign.bind.cur.state == s.sh.agents[s.assign.agent].state)
  }

  /** The record that a heartbeat is about to write back. */
  predicate CallLags(s: State, tid: nat, exact: bool)
    requires tid in s.calls
  {
    var c := s.calls[tid];
    c.Heartbeat? && c.beat.HWrite? ==>
      && c.agent in s.sh.agents
      && Lags(c.beat.cur.state, s.sh.agents[c.agent].state)
      && (exact ==> c.beat.cur.state == s.sh.agents[c.agent].state)
  }

  /** Who writes back on the agent knows its state, up to what bypassing calls did to it. */
  ghost predicate Tracked(s: State, a: AgentId, exact: bool) {
    && (s.assign.Binding? && s.assign.agent == a ==> AssignLags(s, exact))
    && (forall tid :: tid in s.calls && s.calls[tid].agent == a ==> CallLags(s, tid, exact))
  }

  // ---------------------------------------------------------------- who changes whose state

  /** Seen by others, the agent's state stays, or a bypassing call moves it on. */
  ghost predicate Stirs(s: State, s': State, a: AgentId) {
    a in s.sh.agents ==>
      && a in s'.sh.agents
      && (|| s'.sh.agents[a].state == s.sh.agents[a].state
          || (Bypassed(s, a) && Advances(s.sh.agents[a].state, s'.sh.agents[a].state)))
  }

  predicate Advances(x: AgentState, y: AgentState) {
    (x.Assigned? && y.Working?) || (x.Working? && y.Reporting?)
  }

  lemma AssignStirs(s: State, s': State, a: AgentId, faulty: bool)
    requires AssignLocal(s) && AssignStep(s, s', faulty)
    requires !Holds(s.sh, a, AssignLoop)
    ensures Stirs(s, s', a)
  {
    if s.assign.Binding? {
      assert BindStep(s, s', s.assign.task, s.assign.agent, s.assign.bind, faulty);
    }
  }

  lemma BeatStirs(s: State, s': State, a: AgentId, faulty: bool)
    requires BeatLocal(s) && BeatStep(s, s', faulty) && !Holds(s.sh, a, HeartbeatLoop)
    ensures Stirs(s, s', a)
  {
    if s.beat.Crashing? {
      assert CrashStep(s, s', s.beat, faulty);
    }
  }

  lemma WorkStirs(s: State, s': State, tid: nat, a: AgentId, faulty: bool)
    requires tid in s.calls && CallLocal(s, tid) && s.calls[tid].Work?
    requires WorkStep(s, s', tid, s.calls[tid], faulty) && !Holds(s.sh, a, Rpc(tid))
    ensures Stirs(s, s', a)
  {
    var c := s.calls[tid];
    if c.agent == a && c.work.WCas? && !c.work.locked {
      assert Bypass(c, a);
    }
  }

  lemma CallStirs(s: State, s': State, tid: nat, a: AgentId, faulty: bool)
    requires tid in s.calls && CallLocal(s, tid) && CallStep(s, s', tid, faulty) && !Holds(s.sh, a, Rpc(tid))
    ensures Stirs(s, s', a)
  {
    match s.calls[tid]
    case Work(_, _, _) => WorkStirs(s, s', tid, a, faulty);
    case Done(_, _, _) => assert DoneStep(s, s', tid, s.calls[tid], faulty);
    case _ =>
  }

  /** A step by someone who does not hold the agent's mutex. */
  lemma OthersStir(s: State, s': State, who: Actor, a: AgentId, faulty: bool)
    requires Inv(s) && Step(s, s', who, faulty)
    requires who.Assigner? ==> !Holds(s.sh, a, AssignLoop)
    requires who.Beater? ==> !Holds(s.sh, a, HeartbeatLoop)
    requires who.Caller? ==> !Holds(s.sh, a, Rpc(who.tid))
    ensures Stirs(s, s', a)
  {
    match who
    case Assigner => AssignStirs(s, s', a, faulty);
    case Beater => BeatStirs(s, s', a, faulty);
    case Caller(tid) =>
      assert CallLocal(s, tid);
      CallStirs(s, s', tid, a, faulty);
    case _ =>
  }

  // ---------------------------------------------------------------- what writers know

  lemma AssignTracked(s: State, s': State, who: Actor, a: AgentId, exact: bool, faulty: bool)
    requires Inv(s) && Step(s, s', who, faulty) && (exact ==> !Bypassed(s, a))
    requires s'.assign.Binding? && s'.assign.agent == a && (s.assign == s'.assign ==> AssignLags(s, exact))
    ensures AssignLags(s', exact)
  {
    if who.Assigner? {
      assert s.assign.Binding? ==> BindStep(s, s', s.assign.task, s.assign.agent, s.assign.bind, faulty);
    } else {
      AssignUnmoved(s, s', who, faulty);
      if s.assign.bind.SetFields? {
        assert Holds(s.sh, a, AssignLoop);
        OthersStir(s, s', who, a, faulty);
      }
    }
  }

  lemma AssignUnmoved(s: State, s': State, who: Actor, faulty: bool)
    requires Inv(s) && Step(s, s', who, faulty) && !who.Assigner?
    ensures s'.assign == s.assign
  {
    if who.Caller? {
      assert CallLocal(s, who.tid);
      CallGuarantee(s, s', who.tid, faulty);
    }
  }

  /** A call that another thread's step leaves alone. */
  lemma CallTracked(s: State, s': State, who: Actor, a: AgentId, tid: nat, exact: bool, faulty: bool)
    requires Inv(s) && Step(s, s', who, faulty) && (exact ==> !Bypassed(s, a))
    requires tid in s.calls && tid in s'.calls && s'.calls[tid] == s.calls[tid] && s.calls[tid].agent == a
    requires !(who.Caller? && who.tid == tid) && CallLags(s, tid, exact)
    ensures CallLags(s', tid, exact)
  {
    assert CallLocal(s, tid);
    if s.calls[tid].Heartbeat? && s.calls[tid].beat.HWrite? {
      assert Holds(s.sh, a, Rpc(tid));
      OthersStir(s, s', who, a, faulty);
    }
  }

  /** A call that makes its own step. */
  lemma OwnTracked(s: State, s': State, tid: nat, exact: bool, faulty: bool)
    requires tid in s.calls && CallStep(s, s', tid, faulty) && tid in s'.calls
    ensures CallLags(s', tid, exact) && s'.calls[tid].agent == s.calls[tid].agent
  {
    if s.calls[tid].Done? {
      assert DoneStep(s, s', tid, s.calls[tid], faulty);
    }
  }

  lemma OtherCalls(s: State, s': State, who: Actor, tid: nat, faulty: bool)
    requires Inv(s) && Step(s, s', who, faulty) && tid in s'.calls && !(who.Caller? && who.tid == tid)
    ensures if tid in s.calls then s'.calls[tid] == s.calls[tid]
            else s'.calls[tid].Heartbeat? ==> s'.calls[tid].beat.HMutex?
  {
    match who
    case Assigner => AssignGuarantee(s, s', faulty);
    case Caller(i) =>
      assert CallLocal(s, i);
      CallGuarantee(s, s', i, faulty);
    case _ =>
  }

  lemma StepTracked(s: State, s': State, who: Actor, a: AgentId, exact: bool, faulty: bool)
    requires Inv(s) && Step(s, s', who, faulty) && Tracked(s, a, exact) && (exact ==> !Bypassed(s, a))
    ensures Tracked(s', a, exact)
  {
    if s'.assign.Binding? && s'.assign.agent == a {
      AssignTracked(s, s', who, a, exact, faulty);
    }
    forall tid | tid in s'.calls && s'.calls[tid].agent == a ensures CallLags(s', tid, exact) {
      if who.Caller? && who.tid == tid {
        OwnTracked(s, s', tid, exact, faulty);
      } else {
        OtherCalls(s, s', who, tid, faulty);
        if tid in s.calls {
          CallTracked(s, s', who, a, tid, exact, faulty);
        }
      }
    }
  }

  /** Read states lag behind at most; and they are current as long as no call bypasses the mutex. */
  lemma {:induction false} RunTracked(states: seq<State>, actors: seq<Actor>, faulty: bool, n: nat, a: AgentId,
                                      exact: bool)
    requires Run(states, actors, faulty) && n < |states|
    requires exact ==> forall i :: 0 <= i < n ==> !Bypassed(states[i], a)
    ensures Tracked(states[n], a, exact)
  {
    if n > 0 {
      RunTracked(states, actors, faulty, n - 1, a, exact);
      RunKeepsInv(states, actors, faulty, n - 1);
      StepTracked(states[n - 1], states[n], actors[n - 1], a, exact, faulty);
    }
  }

  // ---------------------------------------------------------------- the table

  /** The step writes a record back on the agent with a state that is no longer the agent's. */
  predicate Outdated(s: State, who: Actor, a: AgentId) {
    && a in s.sh.agents
    && match who
       case Assigner =>
         && s.assign.Binding? && s.assign.agent == a
         && s.assign.bind.SetFields? && s.assign.bind.cur.state != s.sh.agents[a].state
       case Caller(tid) =>
         tid in s.calls && s.calls[tid].Heartbeat? && s.calls[tid].agent == a && s.calls[tid].beat.HWrite?
         && s.calls[tid].beat.cur.state != s.sh.agents[a].state
       case _ => false
  }

  lemma AssignFollows(s: State, s': State, a: AgentId, faulty: bool)
    requires AssignLocal(s) && AssignStep(s, s', faulty) && a in s.sh.agents && !Outdated(s, Assigner, a)
    ensures a in s'.sh.agents && Follows(s.sh.agents[a].state, s'.sh.agents[a].state)
  {
    if s.assign.Binding? {
      assert BindStep(s, s', s.assign.task, s.assign.agent, s.assign.bind, faulty);
    }
    assert ValidTransition(Idle, TaskAssigned) == Some(Assigned);
  }

  /** Only the transition of a crash touches a record. */
  lemma CrashLeavesRecords(s: State, s': State, faulty: bool)
    requires s.beat.Crashing? && !s.beat.crash.BCas? && CrashStep(s, s', s.beat, faulty)
    ensures s'.sh.agents == s.sh.agents
  {
  }

  lemma CrashFollows(s: State, s': State, a: AgentId, faulty: bool)
    requires s.beat.Crashing? && CrashStep(s, s', s.beat, faulty) && a in s.sh.agents
    ensures a in s'.sh.agents && (s'.sh.agents[a].state == s.sh.agents[a].state || s'.sh.agents[a].state == Idle)
  {
    if !s.beat.crash.BCas? {
      CrashLeavesRecords(s, s', faulty);
    }
  }

  lemma BeatFollows(s: State, s': State, a: AgentId, faulty: bool)
    requires BeatStep(s, s', faulty) && a in s.sh.agents
    ensures a in s'.sh.agents && Follows(s.sh.agents[a].state, s'.sh.agents[a].state)
  {
    if s.beat.Crashing? {
      CrashFollows(s, s', a, faulty);
    }
    assert ValidTransition(s.sh.agents[a].state, AgentFailed) == Some(Idle);
  }

  lemma WorkFollows(s: State, s': State, tid: nat, a: AgentId, faulty: bool)
    requires tid in s.calls && s.calls[tid].Work? && WorkStep(s, s', tid, s.calls[tid], faulty) && a in s.sh.agents
    ensures a in s'.sh.agents && Follows(s.sh.agents[a].state, s'.sh.agents[a].state)
  {
    var e := s.calls[tid].event;
    assert NextState(s.sh.agents[a].state, e).Some? ==>
        ValidTransition(s.sh.agents[a].state, e) == Some(NextState(s.sh.agents[a].state, e).value);
  }

  lemma DoneFollows(s: State, s': State, tid: nat, a: AgentId, faulty: bool)
    requires tid in s.calls && CallLocal(s, tid) && s.calls[tid].Done?
    requires DoneStep(s, s', tid, s.calls[tid], faulty) && a in s.sh.agents
    ensures a in s'.sh.agents && Follows(s.sh.agents[a].state, s'.sh.agents[a].state)
  {
    assert ValidTransition(Reporting, OutputDelivered) == Some(Idle);
  }

  lemma CallFollows(s: State, s': State, tid: nat, a: AgentId, faulty: bool)
    requires Inv(s) && tid in s.calls && CallStep(s, s', tid, faulty)
    requires a in s.sh.agents && !Outdated(s, Caller(tid), a)
    ensures a in s'.sh.agents && Follows(s.sh.agents[a].state, s'.sh.agents[a].state)
  {
    assert CallLocal(s, tid);
    match s.calls[tid]
    case Work(_, _, _) => WorkFollows(s, s', tid, a, faulty);
    case Done(_, _, _) => DoneFollows(s, s', tid, a, faulty);
    case _ =>
  }

  lemma StepFollows(s: State, s': State, who: Actor, a: AgentId, faulty: bool)
    requires Inv(s) && Step(s, s', who, faulty) && a in s.sh.agents && !Outdated(s, who, a)
    ensures a in s'.sh.agents && Follows(s.sh.agents[a].state, s'.sh.agents[a].state)
  {
    match who
    case Assigner => AssignFollows(s, s', a, faulty);
    case Beater => BeatFollows(s, s', a, faulty);
    case Caller(tid) => CallFollows(s, s', tid, a, faulty);
    case _ =>
  }

  /** A lagging state written back goes against the table. */
  lemma OutdatedBreaks(s: State, s': State, who: Actor, a: AgentId, faulty: bool)
    requires Inv(s) && Tracked(s, a, false) && Step(s, s', who, faulty) && Outdated(s, who, a)
    ensures a in s'.sh.agents
    ensures s'.sh.agents[a].state != s.sh.agents[a].state ==> !Follows(s.sh.agents[a].state, s'.sh.agents[a].state)
  {
    if who.Caller? {
      assert CallLags(s, who.tid, false);
    }
  }

  // ---------------------------------------------------------------- the theorems

  /**
   A step of the supervisor takes an agent's state along the transition table if and only
   if it does not write back an outdated state.
   */
  lemma LegalIffCurrent(states: seq<State>, actors: seq<Actor>, faulty: bool, n: nat, a: AgentId)
    requires Run(states, actors, faulty) && n < |actors| && a in states[n].sh.agents
    ensures var x := states[n].sh.agents[a].state;
            && a in states[n + 1].sh.agents
            && var y := states[n + 1].sh.agents[a].state;
               Follows(x, y) <==> x == y || !Outdated(states[n], actors[n], a)
  {
    RunKeepsInv(states, actors, faulty, n);
    RunTracked(states, actors, faulty, n, a, false);
    var s, s', who := states[n], states[n + 1], actors[n];
    if Outdated(s, who, a) {
      OutdatedBreaks(s, s', who, a, faulty);
    } else {
      StepFollows(s, s', who, a, faulty);
    }
  }

  /** As long as no call on the agent bypasses its mutex, its history is legal. */
  lemma LegalWithoutBypass(states: seq<State>, actors: seq<Actor>, faulty: bool, n: nat, a: AgentId)
    requires Run(states, actors, faulty) && n < |actors| && a in states[n].sh.agents
    requires forall i :: 0 <= i < n ==> !Bypassed(states[i], a)
    ensures a in states[n + 1].sh.agents && Follows(states[n].sh.agents[a].state, states[n + 1].sh.agents[a].state)
  {
    RunKeepsInv(states, actors, faulty, n);
    RunTracked(states, actors, faulty, n, a, true);
    var s, who := states[n], actors[n];
    if who.Caller? && who.tid in s.calls {
      assert s.calls[who.tid].agent == a ==> CallLags(s, who.tid, true);
    }
    StepFollows(s, states[n + 1], who, a, faulty);
  }

  // ---------------------------------------------------------------- a history against the table

  const T: Task := Task("t", 1.0)
  const ORIGIN: State := Resting(Unregistered([]), Ready, NO_HISTORY)
  const ONCE: History := NO_HISTORY.(submitted := multiset{T})
  const EARLY: map<nat, Call> := map[1 := Work(A, WorkStarted, WRead(false))]

  /** StartWork looked its mutex up before the agent was registered; then the agent is given a task. */
  lemma CalledEarly()
    ensures Leads(ORIGIN, Busied(World(Record(Assigned, "t", 1.0), [], 0), Ready, EARLY, ONCE), false)
  {
    Here(ORIGIN, false);
    var s1 := Resting(Unregistered([T]), Ready, ONCE);
    On(ORIGIN, ORIGIN, s1, Submitter(T), false);
    var s2 := s1.(calls := map[1 := Work(A, WorkStarted, WMutex)]);
    On(ORIGIN, s1, s2, Arriver(1, Work(A, WorkStarted, WMutex)), false);
    On(ORIGIN, s2, Busied(Unregistered([T]), Ready, EARLY, ONCE), Caller(1), false);
    Registers(ORIGIN, [T], EARLY, ONCE);
    assert [T] + [] == [T];
    Assigns(ORIGIN, T, [], EARLY, ONCE);
  }

  /** A heartbeat has the agent's mutex. */
  lemma HeartbeatInside() returns (s: State)
    ensures Leads(ORIGIN, s, false) && s.calls == EARLY[2 := Heartbeat(A, HRead)]
    ensures s.sh.agents == map[A := Record(Assigned, "t", 1.0)] && s.sh.now == 0
  {
    CalledEarly();
    var s0 := Busied(World(Record(Assigned, "t", 1.0), [], 0), Ready, EARLY, ONCE);
    var s1 := s0.(calls := EARLY[2 := Heartbeat(A, HMutex)]);
    On(ORIGIN, s0, s1, Arriver(2, Heartbeat(A, HMutex)), false);
    var s2 := s1.(calls := EARLY[2 := Heartbeat(A, HLock)]);
    On(ORIGIN, s1, s2, Caller(2), false);
    s := s2.(calls := EARLY[2 := Heartbeat(A, HRead)], sh := s2.sh.(holder := map[A := Rpc(2)]));
    On(ORIGIN, s2, s, Caller(2), false);
  }

  /** It has read the record, and StartWork the state. */
  lemma BothRead() returns (s: State)
    ensures Leads(ORIGIN, s, false) && s.sh.agents == map[A := Record(Assigned, "t", 1.0)] && s.sh.now == 0
    ensures s.calls == map[1 := Work(A, WorkStarted, WCas(false, Assigned)),
                           2 := Heartbeat(A, HWrite(Record(Assigned, "t", 1.0)))]
  {
    var s3 := HeartbeatInside();
    var s4 := s3.(calls := s3.calls[2 := Heartbeat(A, HWrite(Record(Assigned, "t", 1.0)))]);
    On(ORIGIN, s3, s4, Caller(2), false);
    s := s4.(calls := s4.calls[1 := Work(A, WorkStarted, WCas(false, Assigned))]);
    On(ORIGIN, s4, s, Caller(1), false);
  }

  /** A heartbeat takes a working agent back to ASSIGNED: some history is not legal. */
  lemma RolledBack() returns (s: State, s': State)
    ensures Reachable(s, false) && Step(s, s', Caller(2), false)
    ensures A in s.sh.agents && s.sh.agents[A].state == Working
    ensures A in s'.sh.agents && s'.sh.agents[A].state == Assigned && !Follows(Working, Assigned)
  {
    var s0 := BothRead();
    s := s0.(calls := s0.calls - {1}, sh := Move(s0.sh, A, Working));
    On(ORIGIN, s0, s, Caller(1), false);
    FromInit(ORIGIN, s, false);
    var c := s.calls[2];
    s' := Goto(s, 2, c.(beat := HUnlock)).(sh := Put(s.sh, A, c.beat.cur.(lastHeartbeat := Millis(s.sh.now))));
  }
}
