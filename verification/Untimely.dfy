/**
 The exact reach of the cooldown theorems.  They end where a crash takes exactly
 24 hours: such a run exists on a failure-free store, and from every state with an
 exposed agent the run can go on to assign this agent while its exclusion stands.
 */
module UntimelyCrash {
  import opened Types
  import opened Agent
  import opened SupervisorSystem
  import opened SupervisorInvariant
  import opened Exclusion
  import opened CrashSentinel
  import opened Restart
  import opened SupervisorPaths
  import opened SupervisorScripts

  // ---------------------------------------------------------------- the policy's decisions

  /** A decision that excludes the agent. */
  predicate Excluding(d: Decision) {
    !d.shouldRestart || d.backoff > 0
  }

  /** The exclusion such a decision is recorded as. */
  function BanOf(d: Decision, now: Time): Ban {
    if d.shouldRestart then Until(now + d.backoff) else Forever
  }

  /** A configuration under which every crash is answered by an exclusion. */
  predicate Configured(c: Config) {
    0 < c.baseBackoff <= c.maxBackoff <= TWO_62 && c.baseBackoff < TWO_62
  }

  /** What NewRestartPolicy starts from. */
  const DEFAULTS: Config := Config(1_000_000_000, 30_000_000_000, 5, 60_000_000_000)

  lemma PolicyExcludes(c: Config, p: Policy, a: AgentId, now: Time)
    requires Configured(c)
    ensures Excluding(Crashed(c, p, a, now).1)
  {
    var n := ConsecutiveOf(p, a) + 1;
    if n >= 1 {
      BackoffMonotone(c.baseBackoff, c.maxBackoff, n, n);
    }
  }

  /** What the crash under way will be answered: the decision it has, or else the policy's. */
  function Answer(s: State, c: Config, p: Policy): Decision
    requires s.beat.Crashing?
  {
    if s.beat.crash.BRecord? then s.beat.crash.decision else Crashed(c, p, s.beat.agent, s.sh.now).1
  }

  // ---------------------------------------------------------------- from any exposed state

  /** The assignment loop goes as far as it can without the agent's mutex. */
  lemma Admitted(o: State, s: State, faulty: bool) returns (t: State)
    requires Leads(o, s, faulty) && Exposed(s) && BeatLocal(s)
    ensures Leads(o, t, faulty)
    ensures t == s.(assign := Binding(s.assign.task, s.assign.find.candidate, Lock))
  {
    var a := s.assign.find.candidate;
    var s1 := s.(assign := Binding(s.assign.task, a, Mutex));
    On(o, s, s1, Assigner, faulty);
    t := s1.(assign := Binding(s.assign.task, a, Lock));
    On(o, s1, t, Assigner, faulty);
  }

  /** crashAgent asks the policy. */
  lemma Decides(o: State, s: State, a: AgentId, c: Config, p: Policy, faulty: bool) returns (t: State)
    requires Leads(o, s, faulty) && Threatened(s.beat, a)
    ensures Leads(o, t, faulty)
    ensures t == s.(beat := s.beat.(crash := BRecord(Answer(s, c, p))), sh := s.sh.(queue := t.sh.queue))
  {
    t := s;
    if !s.beat.crash.BRecord? {
      var s1 := s;
      if s.beat.crash.BEnqueue? {
        var pre := s.beat.crash.pre;
        s1 := AtCrash(s, s.beat, BPolicy);
        if pre.task != "" {
          var q := SomeQueue(s.sh.queue, Task(pre.task, pre.priority));
          s1 := s1.(sh := s1.sh.(queue := q));
        }
        On(o, s, s1, Beater, faulty);
      }
      t := AtCrash(s1, s1.beat, BRecord(Answer(s, c, p)));
      On(o, s1, t, Beater, faulty);
    }
  }

  /** It records the decision and lets go of the mutex. */
  lemma Excludes(o: State, s: State, a: AgentId, d: Decision, faulty: bool) returns (t: State)
    requires Leads(o, s, faulty) && Deposed(s.beat, a) && s.beat.crash == BRecord(d) && Excluding(d)
    ensures Leads(o, t, faulty) && t.assign == s.assign && t.sh.agents == s.sh.agents
    ensures a !in t.sh.holder && t.sh.now == s.sh.now && t.sh.bans == s.sh.bans[a := BanOf(d, s.sh.now)]
  {
    var s1 := AtCrash(s, s.beat, BUnlock).(sh := Recorded(s.sh, a, d));
    On(o, s, s1, Beater, faulty);
    t := s1.(beat := Checking(s1.beat.todo, s1.beat.now), sh := Release(s1.sh, a));
    On(o, s1, t, Beater, faulty);
  }

  /** The waiting assignment gets the mutex and makes the transition. */
  lemma Assigned(o: State, s: State, task: Task, a: AgentId, faulty: bool) returns (t: State)
    requires Leads(o, s, faulty) && s.assign == Binding(task, a, Lock) && a !in s.sh.holder
    requires a in s.sh.agents && s.sh.agents[a].state == Idle
    ensures Leads(o, t, faulty) && t.sh.bans == s.sh.bans && t.sh.now == s.sh.now
    ensures a in t.sh.agents && t.sh.agents[a].state == AgentState.Assigned
  {
    var s1 := AtBind(s, task, a, Read).(sh := Acquire(s.sh, a, AssignLoop));
    On(o, s, s1, Assigner, faulty);
    var s2 := AtBind(s1, task, a, Cas(Idle));
    On(o, s1, s2, Assigner, faulty);
    t := AtBind(s2, task, a, GetFields).(sh := Move(s2.sh, a, AgentState.Assigned));
    On(o, s2, t, Assigner, faulty);
  }

  /** The agent is assigned although the exclusion that answers its crash stands. */
  predicate Violated(s: State, t: State, a: AgentId, d: Decision) {
    && t.sh.now == s.sh.now && t.sh.bans == s.sh.bans[a := BanOf(d, s.sh.now)]
    && Excluded(t.sh, a) && a in t.sh.agents && t.sh.agents[a].state == AgentState.Assigned
  }

  lemma Fatal(o: State, s: State, c: Config, p: Policy, faulty: bool) returns (t: State)
    requires Leads(o, s, faulty) && Exposed(s) && BeatLocal(s) && Configured(c)
    ensures Leads(o, t, faulty) && Violated(s, t, s.assign.find.candidate, Answer(s, c, p))
  {
    var a := s.assign.find.candidate;
    PolicyExcludes(c, p, a, s.sh.now);
    var s1 := Admitted(o, s, faulty);
    var s2 := Decides(o, s1, a, c, p, faulty);
    var s3 := Excludes(o, s2, a, Answer(s, c, p), faulty);
    t := Assigned(o, s3, s.assign.task, a, faulty);
  }

  /**
   From every reachable state with an exposed candidate, some continuation assigns that
   candidate while its exclusion stands: the one the policy answers the crash with,
   under any configuration in range and in any state of the policy's books.
   */
  lemma ExposedIsFatal(states: seq<State>, actors: seq<Actor>, faulty: bool, n: nat, c: Config, p: Policy)
    returns (t: State)
    requires Run(states, actors, faulty) && n < |states| && Exposed(states[n]) && Configured(c)
    ensures Leads(states[n], t, faulty)
    ensures Violated(states[n], t, states[n].assign.find.candidate, Answer(states[n], c, p))
  {
    RunKeepsInv(states, actors, faulty, n);
    Here(states[n], faulty);
    t := Fatal(states[n], states[n], c, p, faulty);
  }

  /** And no other way leads there: before, a candidate was exposed by a crash that has taken 24 hours. */
  lemma SomewhereExposed(states: seq<State>, actors: seq<Actor>, faulty: bool, n: nat, a: AgentId)
    returns (j: nat, i: nat)
    requires Run(states, actors, faulty) && n < |states|
    requires Excluded(states[n].sh, a) && !(a in states[n].sh.agents && states[n].sh.agents[a].state == Idle)
    ensures i < n && Exposed(states[i]) && Guarding(states, actors, j, i)
    ensures states[i].sh.now - states[j].sh.now >= SENTINEL
  {
    if forall k :: 0 <= k < n ==> !Exposed(states[k]) {
      UnexposedAgentsRest(states, actors, faulty, n, a);
    }
    i :| i < n && Exposed(states[i]);
    j := ExposedIsLate(states, actors, faulty, i);
  }

  // ---------------------------------------------------------------- a crash of 24 hours

  const T: Task := Task("t", 1.0)
  const START: Time := 1_000_000
  const LATE: Time := START + SENTINEL
  const ONCE: History := NO_HISTORY.(submitted := multiset{T})
  const ORIGIN: State := Resting(Unregistered([]), Ready, NO_HISTORY)
  const HELD: Fields := Record(AgentState.Assigned, "t", 1.0)
  const NO_BOOKS: Policy := Policy(map[], map[])

  /** The agent is being crashed, with its mutex taken. */
  function Crashes(f: Fields, crash: CrashPc, cooldown: map<AgentId, Time>): State {
    State(World(f, [], START).(holder := map[A := HeartbeatLoop], cooldown := cooldown), Ready,
          Crashing(A, crash, [], START), map[], ONCE)
  }

  /** The agent holds the task, and time passes without a heartbeat. */
  lemma GoneStale()
    ensures Leads(ORIGIN, Resting(World(HELD, [], START), Ready, ONCE), false)
  {
    Here(ORIGIN, false);
    Registers(ORIGIN, [], map[], NO_HISTORY);
    var s0 := Resting(World(Record(Idle, "", 0.0), [], 0), Ready, NO_HISTORY);
    var s1 := Resting(World(Record(Idle, "", 0.0), [T], 0), Ready, ONCE);
    On(ORIGIN, s0, s1, Submitter(T), false);
    assert [T] + [] == [T];
    Assigns(ORIGIN, T, [], map[], ONCE);
    var s2 := Resting(World(HELD, [], 0), Ready, ONCE);
    On(ORIGIN, s2, s2.(sh := s2.sh.(now := START)), Ticker, false);
  }

  /** The heartbeat loop finds it and crashAgent reads its record. */
  lemma Suspected()
    ensures Leads(ORIGIN, Crashes(HELD, BSentinel(HELD), map[]), false)
  {
    GoneStale();
    assert [A][1..] == [];
    var s0 := Resting(World(HELD, [], START), Ready, ONCE);
    var s1 := s0.(beat := Checking([A], START));
    On(ORIGIN, s0, s1, Beater, false);
    var s2 := s1.(beat := Crashing(A, BMutex, [], START));
    On(ORIGIN, s1, s2, Beater, false);
    var s3 := s2.(beat := Crashing(A, BLock, [], START));
    On(ORIGIN, s2, s3, Beater, false);
    var s4 := Crashes(HELD, BPreRead, map[]);
    On(ORIGIN, s3, s4, Beater, false);
    On(ORIGIN, s4, Crashes(HELD, BSentinel(HELD), map[]), Beater, false);
  }

  /** With its sentinel set, crashAgent moves the agent to idle and requeues its task. */
  lemma Deposes() returns (s: State)
    ensures Leads(Crashes(HELD, BRead(HELD), map[A := LATE]), s, false)
    ensures var crash := Crashes(Record(Idle, "t", 1.0), BPolicy, map[A := LATE]);
            s == crash.(sh := crash.sh.(queue := [T]))
  {
    var o := Crashes(HELD, BRead(HELD), map[A := LATE]);
    Here(o, false);
    var s1 := Crashes(HELD, BCas(HELD, AgentState.Assigned), map[A := LATE]);
    On(o, o, s1, Beater, false);
    var s2 := Crashes(Record(Idle, "t", 1.0), BEnqueue(HELD), map[A := LATE]);
    On(o, s1, s2, Beater, false);
    s := s2.(beat := Crashing(A, BPolicy, [], START), sh := s2.sh.(queue := [T]));
    On(o, s2, s, Beater, false);
  }

  /** Then a day passes before it asks the policy. */
  lemma HeldUp() returns (s: State)
    ensures var o := Crashes(HELD, BRead(HELD), map[A := LATE]);
            Leads(o, s, false) && Exposed(s) && BeatLocal(s) && s.sh.now == LATE
    ensures s.sh.bans == map[] && s.assign.find.candidate == A && s.beat == Crashing(A, BPolicy, [], START)
  {
    var o := Crashes(HELD, BRead(HELD), map[A := LATE]);
    var s1 := Deposes();
    var s2 := s1.(sh := s1.sh.(now := LATE));
    On(o, s1, s2, Ticker, false);
    s := Rechecks(o, s2);
  }

  /** findIdleAgent from the dequeue to the recheck of an agent whose cooldown has run out. */
  lemma Rechecks(o: State, s0: State) returns (s: State)
    requires Leads(o, s0, false) && s0.assign == Ready && s0.sh.queue == [T]
    requires s0.sh.agents.Keys == {A} && s0.sh.agents[A].state == Idle && s0.sh.circuit == {}
    requires !Cooling(s0.sh.cooldown, A, s0.sh.now)
    ensures Leads(o, s, false) && s.beat == s0.beat && s.sh == s0.sh.(queue := [])
    ensures s.assign == Finding(T, Recheck(A, [], Snapshot(s0.sh.cooldown, {}, s0.sh.now)))
  {
    assert [A][1..] == [] && [T][1..] == [];
    var s1 := s0.(sh := s0.sh.(queue := []), assign := Finding(T, List));
    On(o, s0, s1, Assigner, false);
    var s2 := s1.(assign := Finding(T, Copy([A])));
    On(o, s1, s2, Assigner, false);
    var s3 := s2.(assign := Finding(T, ReadClock([A], s0.sh.cooldown, {})));
    On(o, s2, s3, Assigner, false);
    var s4 := s3.(assign := Finding(T, Scan([A], Snapshot(s0.sh.cooldown, {}, s0.sh.now))));
    On(o, s3, s4, Assigner, false);
    s := s4.(assign := Finding(T, Recheck(A, [], Snapshot(s0.sh.cooldown, {}, s0.sh.now))));
    On(o, s4, s, Assigner, false);
  }

  /** Two quiet paths around one sentinel make a run with this sentinel alone. */
  lemma OneSentinel(o: State, s: State, s': State, t: State, faulty: bool)
    returns (states: seq<State>, actors: seq<Actor>)
    requires Init(o) && Leads(o, s, faulty) && AtSentinel(s) && Step(s, s', Beater, faulty) && Leads(s', t, faulty)
    ensures Run(states, actors, faulty) && Ends(states, t)
    ensures forall j: nat :: Sets(states, actors, j) ==> states[j] == s
  {
    var pre, by1 :| Path(pre, by1, faulty) && Joins(pre, o, s);
    var post, by2 :| Path(post, by2, faulty) && Joins(post, s', t);
    states, actors := pre + post, by1 + [Beater] + by2;
    forall i | 0 <= i < |actors|
      ensures Step(states[i], states[i + 1], actors[i], faulty) && (Sets(states, actors, i) ==> states[i] == s)
    {
      if i < |by1| {
        assert actors[i] == by1[i] && states[i] == pre[i] && states[i + 1] == pre[i + 1];
      } else if i > |by1| {
        var k := i - |by1| - 1;
        assert actors[i] == by2[k] && states[i] == post[k] && states[i + 1] == post[k + 1];
      }
    }
  }

  lemma SpanByOne(states: seq<State>, actors: seq<Actor>, faulty: bool, s: State, t: State, j: nat, i: nat)
    requires Run(states, actors, faulty) && Ends(states, t)
    requires Guarding(states, actors, j, i) && states[j] == s
    ensures states[i].sh.now - states[j].sh.now <= t.sh.now - s.sh.now
  {
    Later(states, actors, faulty, i, |states| - 1);
  }

  /** Then no crash has taken longer than from this sentinel to the end of the run. */
  lemma PromptByOne(states: seq<State>, actors: seq<Actor>, faulty: bool, s: State, t: State, d: Time)
    requires Run(states, actors, faulty) && Ends(states, t) && t.sh.now - s.sh.now < d
    requires forall j: nat :: Sets(states, actors, j) ==> states[j] == s
    ensures Prompt(states, actors, |states| - 1, d)
  {
    forall j: nat, i: nat | i < |states| - 1 && Guarding(states, actors, j, i)
      ensures states[i].sh.now - states[j].sh.now < d
    {
      assert Sets(states, actors, j);
      SpanByOne(states, actors, faulty, s, t, j, i);
    }
  }

  /**
   On a failure-free store and under any configuration in range, a run whose only crash takes
   exactly 24 hours ends with the agent assigned although the exclusion by the policy stands.
   */
  lemma ExcludedYetAssigned(c: Config, d: Time) returns (states: seq<State>, actors: seq<Actor>, t: State)
    requires Configured(c) && d > SENTINEL
    ensures Run(states, actors, false) && Ends(states, t) && Prompt(states, actors, |states| - 1, d)
    ensures A in t.sh.bans && t.sh.bans[A] == BanOf(Crashed(c, NO_BOOKS, A, LATE).1, LATE)
    ensures Excluded(t.sh, A) && A in t.sh.agents && t.sh.agents[A].state == AgentState.Assigned
  {
    var s, s' := Crashes(HELD, BSentinel(HELD), map[]), Crashes(HELD, BRead(HELD), map[A := LATE]);
    Suspected();
    assert Step(s, s', Beater, false);
    var e := HeldUp();
    t := Fatal(s', e, c, NO_BOOKS, false);
    states, actors := OneSentinel(ORIGIN, s, s', t, false);
    PromptByOne(states, actors, false, s, t, d);
  }

  // ---------------------------------------------------------------- the sharp form

  predicate Rests(s: State, a: AgentId) {
    a in s.sh.agents && s.sh.agents[a].state == Idle
  }

  predicate Opened(s: State, a: AgentId) {
    a in s.sh.bans && s.sh.bans[a] == Forever
  }

  /** In every run whose crashes stay below `d`, excluded agents are idle. */
  ghost predicate RestWithin(d: Time) {
    forall states: seq<State>, actors: seq<Actor>, faulty, n: nat, a |
      Run(states, actors, faulty) && n < |states| && Prompt(states, actors, n, d) && Excluded(states[n].sh, a) ::
      Rests(states[n], a)
  }

  /** In every run whose crashes stay below `d`, an opened circuit stays open and its agent idle. */
  ghost predicate FinalWithin(d: Time) {
    forall states: seq<State>, actors: seq<Actor>, faulty, m: nat, n: nat, a |
      Run(states, actors, faulty) && m <= n < |states| && Prompt(states, actors, n, d) && Opened(states[m], a) ::
      Opened(states[n], a) && Rests(states[n], a)
  }

  /** What the sentinel's 24 hours are worth: crashes may take any time below them, and no longer. */
  lemma SafeIffWithinSentinel(d: Time)
    ensures RestWithin(d) <==> d <= SENTINEL
    ensures FinalWithin(d) <==> d <= SENTINEL
  {
    if d <= SENTINEL {
      forall states: seq<State>, actors: seq<Actor>, faulty, n: nat, a |
        Run(states, actors, faulty) && n < |states| && Prompt(states, actors, n, d) && Excluded(states[n].sh, a)
        ensures Rests(states[n], a)
      {
        ExcludedAgentsRest(states, actors, faulty, n, a);
      }
      forall states: seq<State>, actors: seq<Actor>, faulty, m: nat, n: nat, a |
        Run(states, actors, faulty) && m <= n < |states| && Prompt(states, actors, n, d) && Opened(states[m], a)
        ensures Opened(states[n], a) && Rests(states[n], a)
      {
        OpenCircuitIsFinal(states, actors, faulty, m, n, a);
      }
    } else {
      Broken(d);
    }
  }

  /** A backoff is broken under the default configuration, an open circuit where the first crash opens it. */
  lemma Broken(d: Time)
    requires d > SENTINEL
    ensures !RestWithin(d) && !FinalWithin(d)
  {
    var states, actors, t := ExcludedYetAssigned(DEFAULTS, d);
    assert states[|states| - 1] == t && !Rests(t, A);
    var states', actors', t' := ExcludedYetAssigned(DEFAULTS.(crashThreshold := 0), d);
    assert states'[|states'| - 1] == t' && Opened(t', A) && !Rests(t', A);
  }
}
