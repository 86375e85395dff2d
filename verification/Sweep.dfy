/** What one sweep of the heartbeat loop does, agent by agent. */
module HeartbeatSweep {
  import opened Types
  import opened Agent
  import opened SupervisorSystem
  import opened Store
  import Restart

  /** What decides about a sweep and does not change in it. */
  datatype Setup = Setup(
    registered: set<AgentId>,
    staleMillis: int,
    config: Restart.Config,
    getErr: Option<string>,
    getByAgent: map<AgentId, string>,
    casErr: Option<string>,
    enqueueErr: Option<string>)

  /** What a sweep may change. */
  datatype Books = Books(
    agents: map<AgentId, Fields>,
    queue: seq<Task>,
    events: seq<StreamEvent>,
    cool: map<AgentId, Time>,
    circuit: set<AgentId>,
    policy: Restart.Policy)

  /** The agent is not idle, was silent for too long, and crashAgent can lock it and read its record. */
  predicate Suspect(u: Setup, b: Books, a: AgentId, now: Time) {
    && a in b.agents && Busy(b.agents[a].state) && Millis(now) - b.agents[a].lastHeartbeat > u.staleMillis
    && a in u.registered && u.getErr.None? && a !in u.getByAgent
  }

  /** And its transition to idle goes through. */
  predicate Dead(u: Setup, b: Books, a: AgentId, now: Time) {
    Suspect(u, b, a, now) && u.casErr.None? && !b.agents[a].state.Unrecognised?
  }

  /** The agent is registered and overdue with a recognised state. */
  predicate Lost(u: Setup, b: Books, a: AgentId, now: Time) {
    && a in b.agents && a in u.registered && Busy(b.agents[a].state) && !b.agents[a].state.Unrecognised?
    && Millis(now) - b.agents[a].lastHeartbeat > u.staleMillis
  }

  ghost function TheDead(u: Setup, b: Books, among: set<AgentId>, now: Time): set<AgentId> {
    set a | a in among && Dead(u, b, a, now)
  }

  /** The dead whose record binds this very task. */
  ghost function Holders(u: Setup, b: Books, among: set<AgentId>, now: Time, t: Task): set<AgentId> {
    set a | a in among && Dead(u, b, a, now) && b.agents[a].task != ""
            && Task(b.agents[a].task, b.agents[a].priority) == t
  }

  predicate SameRecord(b: Books, b': Books, a: AgentId) {
    (a in b.agents <==> a in b'.agents) && (a in b.agents ==> b'.agents[a] == b.agents[a])
  }

  predicate SameCooldown(b: Books, b': Books, a: AgentId) {
    (a in b.cool <==> a in b'.cool) && (a in b.cool ==> b'.cool[a] == b.cool[a])
  }

  predicate SameCrashes(p: Restart.Policy, p': Restart.Policy, a: AgentId) {
    Restart.CrashesOf(p', a) == Restart.CrashesOf(p, a) && Restart.ConsecutiveOf(p', a) == Restart.ConsecutiveOf(p, a)
  }

  predicate SameAgent(b: Books, b': Books, a: AgentId) {
    && SameRecord(b, b', a) && SameCooldown(b, b', a) && SameCrashes(b.policy, b'.policy, a)
    && (a in b'.circuit <==> a in b.circuit)
  }

  /** The agent is idle, the policy has recorded its crash, and its decision is in force. */
  predicate Crashed(u: Setup, b: Books, b': Books, a: AgentId, later: Time)
    requires a in b.agents
  {
    var (p, d) := Restart.Crashed(u.config, b.policy, a, later);
    && a in b'.agents && b'.agents[a] == b.agents[a].(state := Idle)
    && SameCrashes(p, b'.policy, a)
    && (a in b'.circuit <==> a in b.circuit || !d.shouldRestart)
    && if d.shouldRestart && d.backoff > 0 then a in b'.cool && b'.cool[a] == later + d.backoff else a !in b'.cool
  }

  /** The agent was looked at.  A crash that could not go through leaves no sentinel behind. */
  predicate LookedAt(u: Setup, b: Books, b': Books, a: AgentId, now: Time, later: Time) {
    if Dead(u, b, a, now) then Crashed(u, b, b', a, later)
    else
      && SameRecord(b, b', a) && SameCrashes(b.policy, b'.policy, a) && (a in b'.circuit <==> a in b.circuit)
      && if Suspect(u, b, a, now) then a !in b'.cool else SameCooldown(b, b', a)
  }

  /** Each dead agent's task is back at its priority, unless the store takes no tasks. */
  ghost predicate TasksReturned(u: Setup, b: Books, b': Books, among: set<AgentId>, now: Time) {
    if u.enqueueErr.Some? then b'.queue == b.queue
    else
      && ByPriority(b'.queue)
      && forall t :: multiset(b'.queue)[t] == multiset(b.queue)[t] + |Holders(u, b, among, now, t)|
  }

  function FailureEvent(a: AgentId, now: Time): Event {
    Event("agent_failed", a, "", Millis(now), "")
  }

  /** The entries after the first `from` are one failure for each agent of the set, and no others. */
  ghost predicate FailuresOf(events: seq<StreamEvent>, from: nat, dead: set<AgentId>, now: Time)
    requires from <= |events|
  {
    && |events| == from + |dead|
    && (forall i :: from <= i < |events| ==>
          events[i].event.agent in dead && events[i].event == FailureEvent(events[i].event.agent, now))
    && (forall a :: a in dead ==> exists i :: from <= i < |events| && events[i].event.agent == a)
  }

  /** One event was published for each dead agent and none besides. */
  ghost predicate Announced(u: Setup, b: Books, b': Books, among: set<AgentId>, now: Time) {
    b.events <= b'.events && FailuresOf(b'.events, |b.events|, TheDead(u, b, among, now), now)
  }

  /** A sweep has looked at the agents of `among`, and at no other. */
  ghost predicate Swept(u: Setup, b: Books, b': Books, among: set<AgentId>, now: Time, later: Time) {
    && (forall a :: a in among ==> LookedAt(u, b, b', a, now, later))
    && (forall a :: a !in among ==> SameAgent(b, b', a))
    && TasksReturned(u, b, b', among, now)
    && Announced(u, b, b', among, now)
  }

  lemma NothingSwept(u: Setup, b: Books, now: Time, later: Time)
    requires ByPriority(b.queue)
    ensures Swept(u, b, b, {}, now, later)
  {
    assert TheDead(u, b, {}, now) == {};
    forall t ensures |Holders(u, b, {}, now, t)| == 0 {
      assert Holders(u, b, {}, now, t) == {};
    }
  }

  /** What a crash does to an agent depends on what the policy knows about this agent alone. */
  lemma CrashedAlike(c: Restart.Config, p: Restart.Policy, q: Restart.Policy, a: AgentId, later: Time)
    requires SameCrashes(p, q, a)
    ensures SameCrashes(Restart.Crashed(c, p, a, later).0, Restart.Crashed(c, q, a, later).0, a)
    ensures Restart.Crashed(c, p, a, later).1 == Restart.Crashed(c, q, a, later).1
  {
    Restart.CrashedView(c, p, a, later, a);
    Restart.CrashedView(c, q, a, later, a);
  }

  lemma NextAgent(u: Setup, b: Books, mid: Books, b': Books, a: AgentId, now: Time, later: Time)
    requires SameAgent(b, mid, a) && LookedAt(u, mid, b', a, now, later)
    ensures LookedAt(u, b, b', a, now, later)
  {
    CrashedAlike(u.config, b.policy, mid.policy, a, later);
  }

  lemma HoldersSplit(u: Setup, b: Books, mid: Books, done: set<AgentId>, a: AgentId, now: Time, t: Task)
    requires a !in done && SameRecord(b, mid, a)
    ensures |Holders(u, b, done + {a}, now, t)| == |Holders(u, b, done, now, t)| + |Holders(u, mid, {a}, now, t)|
  {
    var before, one := Holders(u, b, done, now, t), Holders(u, mid, {a}, now, t);
    forall x ensures x in Holders(u, b, done + {a}, now, t) <==> x in before + one {
    }
    assert Holders(u, b, done + {a}, now, t) == before + one;
  }

  lemma NextTasks(u: Setup, b: Books, mid: Books, b': Books, done: set<AgentId>, a: AgentId, now: Time)
    requires TasksReturned(u, b, mid, done, now) && TasksReturned(u, mid, b', {a}, now)
    requires a !in done && SameRecord(b, mid, a)
    ensures TasksReturned(u, b, b', done + {a}, now)
  {
    forall t | u.enqueueErr.None?
      ensures multiset(b'.queue)[t] == multiset(b.queue)[t] + |Holders(u, b, done + {a}, now, t)|
    {
      HoldersSplit(u, b, mid, done, a, now, t);
    }
  }

  lemma DeadSplit(u: Setup, b: Books, mid: Books, done: set<AgentId>, a: AgentId, now: Time)
    requires a !in done && SameRecord(b, mid, a)
    ensures TheDead(u, b, done + {a}, now) == TheDead(u, b, done, now) + TheDead(u, mid, {a}, now)
    ensures TheDead(u, b, done, now) !! TheDead(u, mid, {a}, now)
  {
    forall x ensures x in TheDead(u, b, done + {a}, now) <==> x in TheDead(u, b, done, now) + TheDead(u, mid, {a}, now)
    {
    }
  }

  lemma FailuresJoin(early: seq<StreamEvent>, late: seq<StreamEvent>, from: nat, one: set<AgentId>, two: set<AgentId>,
                     now: Time)
    requires from <= |early| && early <= late && one !! two
    requires FailuresOf(early, from, one, now) && FailuresOf(late, |early|, two, now)
    ensures FailuresOf(late, from, one + two, now)
  {
    assert forall i :: 0 <= i < |early| ==> late[i] == early[i];
    forall a | a in one + two ensures exists i :: from <= i < |late| && late[i].event.agent == a {
      if a in one {
        var i :| from <= i < |early| && early[i].event.agent == a;
        assert late[i].event.agent == a;
      } else {
        var i :| |early| <= i < |late| && late[i].event.agent == a;
      }
    }
  }

  lemma NextEvents(u: Setup, b: Books, mid: Books, b': Books, done: set<AgentId>, a: AgentId, now: Time)
    requires Announced(u, b, mid, done, now) && Announced(u, mid, b', {a}, now)
    requires a !in done && SameRecord(b, mid, a)
    ensures Announced(u, b, b', done + {a}, now)
  {
    DeadSplit(u, b, mid, done, a, now);
    FailuresJoin(mid.events, b'.events, |b.events|, TheDead(u, b, done, now), TheDead(u, mid, {a}, now), now);
  }

  /** A single agent that is not even suspect. */
  lemma LeftAlone(u: Setup, b: Books, a: AgentId, now: Time, later: Time)
    requires ByPriority(b.queue) && !Suspect(u, b, a, now)
    ensures Swept(u, b, b, {a}, now, later)
  {
    assert TheDead(u, b, {a}, now) == {};
    forall t ensures |Holders(u, b, {a}, now, t)| == 0 {
      assert Holders(u, b, {a}, now, t) == {};
    }
  }

  /** A suspect whose transition does not go through loses its cooldown entry and nothing else. */
  lemma SpuriousSweeps(u: Setup, b: Books, b': Books, a: AgentId, now: Time, later: Time)
    requires ByPriority(b.queue) && !Dead(u, b, a, now)
    requires b' == b.(cool := b'.cool) && b'.cool == if Suspect(u, b, a, now) then b.cool - {a} else b.cool
    ensures Swept(u, b, b', {a}, now, later)
  {
    assert TheDead(u, b, {a}, now) == {};
    forall t ensures |Holders(u, b, {a}, now, t)| == 0 {
      assert Holders(u, b, {a}, now, t) == {};
    }
  }

  /** The effect of crashAgent on the books. */
  predicate CrashEffect(u: Setup, b: Books, b': Books, a: AgentId, later: Time)
    requires a in b.agents
  {
    var (p, d) := Restart.Crashed(u.config, b.policy, a, later);
    && b'.agents == b.agents[a := b.agents[a].(state := Idle)] && b'.policy == p
    && b'.circuit == (if d.shouldRestart then b.circuit else b.circuit + {a})
    && b'.cool == if d.shouldRestart && d.backoff > 0 then (b.cool - {a})[a := later + d.backoff] else b.cool - {a}
  }

  lemma CrashAlone(u: Setup, b: Books, b': Books, a: AgentId, x: AgentId, later: Time)
    requires a in b.agents && CrashEffect(u, b, b', a, later) && x != a
    ensures SameAgent(b, b', x)
  {
    Restart.CrashedView(u.config, b.policy, a, later, x);
  }

  ghost predicate TaskBack(u: Setup, b: Books, b': Books, f: Fields) {
    if f.task == "" || u.enqueueErr.Some? then b'.queue == b.queue
    else Enqueued(b.queue, Task(f.task, f.priority), b'.queue)
  }

  lemma TaskBackReturns(u: Setup, b: Books, b': Books, a: AgentId, now: Time)
    requires ByPriority(b.queue) && Dead(u, b, a, now) && TaskBack(u, b, b', b.agents[a])
    ensures TasksReturned(u, b, b', {a}, now)
  {
    var f := b.agents[a];
    forall t
      ensures Holders(u, b, {a}, now, t) == if f.task != "" && Task(f.task, f.priority) == t then {a} else {}
    {
    }
  }

  lemma CrashSweeps(u: Setup, b: Books, b': Books, a: AgentId, now: Time, later: Time)
    requires ByPriority(b.queue) && Dead(u, b, a, now)
    requires CrashEffect(u, b, b', a, later) && TaskBack(u, b, b', b.agents[a])
    requires |b'.events| == |b.events| + 1 && b.events <= b'.events
    requires b'.events[|b.events|].event == FailureEvent(a, now)
    ensures Swept(u, b, b', {a}, now, later)
  {
    assert TheDead(u, b, {a}, now) == {a};
    assert b'.events[|b.events|].event.agent == a;
    TaskBackReturns(u, b, b', a, now);
    forall x | x !in {a} ensures SameAgent(b, b', x) {
      CrashAlone(u, b, b', a, x, later);
    }
  }

  /** One more agent was looked at. */
  lemma NextSwept(u: Setup, b: Books, mid: Books, b': Books, done: set<AgentId>, a: AgentId, now: Time, later: Time)
    requires Swept(u, b, mid, done, now, later) && Swept(u, mid, b', {a}, now, later) && a !in done
    ensures Swept(u, b, b', done + {a}, now, later)
  {
    NextAgent(u, b, mid, b', a, now, later);
    NextTasks(u, b, mid, b', done, a, now);
    NextEvents(u, b, mid, b', done, a, now);
    forall x | x in done ensures LookedAt(u, b, b', x, now, later) {
      assert LookedAt(u, b, mid, x, now, later) && SameAgent(mid, b', x);
    }
    forall x | x !in done + {a} ensures SameAgent(b, b', x) {
      assert SameAgent(b, mid, x) && SameAgent(mid, b', x);
    }
  }

  /** A sweep over all agents leaves none that is dead, and no record but theirs is changed. */
  lemma SweptRecords(u: Setup, b: Books, b': Books, now: Time, later: Time)
    requires Swept(u, b, b', b.agents.Keys, now, later)
    ensures b'.agents.Keys == b.agents.Keys
    ensures forall a :: a in b.agents ==>
              b'.agents[a] == if Dead(u, b, a, now) then b.agents[a].(state := Idle) else b.agents[a]
    ensures forall a :: !Dead(u, b', a, now)
    ensures u.getErr.None? && u.getByAgent == map[] && u.casErr.None? ==>
              && (forall a :: Dead(u, b, a, now) <==> Lost(u, b, a, now)) && (forall a :: !Lost(u, b', a, now))
  {
    forall a ensures a in b'.agents <==> a in b.agents {
      assert a !in b.agents ==> SameAgent(b, b', a);
      assert a in b.agents ==> LookedAt(u, b, b', a, now, later);
    }
  }
}
