/**
 What the sentinel of crashAgent is worth: until the decision is recorded, the
 agent's cooldown entry lies 24 hours after the step that set it, so that only
 a crash that has taken 24 hours can let an excluded agent be assigned.
 */
module CrashSentinel {
  import opened Types
  import opened Agent
  import opened SupervisorSystem
  import opened SupervisorInvariant
  import opened Exclusion

  /** crashAgent between its sentinel and the recording of the decision. */
  predicate PastSentinel(p: BeatPc) {
    && p.Crashing?
    && (p.crash.BRead? || p.crash.BCas? || p.crash.BAbort? || p.crash.BEnqueue? || p.crash.BPolicy? || p.crash.BRecord?)
  }

  /** Step `j` of the run sets a sentinel. */
  predicate Sets(states: seq<State>, actors: seq<Actor>, j: nat) {
    j < |actors| && j < |states| && actors[j] == Beater && AtSentinel(states[j])
  }

  /** The crash that set its sentinel in step `j` has not recorded its decision in state `n`. */
  ghost predicate Guarding(states: seq<State>, actors: seq<Actor>, j: nat, n: nat) {
    j < n < |states| && Sets(states, actors, j) && forall k :: j < k <= n ==> PastSentinel(states[k].beat)
  }

  /** Up to state `n`, the time from a crash's sentinel to the recording of its decision stays below `d`. */
  ghost predicate Prompt(states: seq<State>, actors: seq<Actor>, n: nat, d: Time) {
    forall j: nat, i: nat :: i < n && Guarding(states, actors, j, i) ==> states[i].sh.now - states[j].sh.now < d
  }

  // ---------------------------------------------------------------- the clock

  lemma TimePasses(s: State, s': State, who: Actor, faulty: bool)
    requires Inv(s) && Step(s, s', who, faulty)
    ensures s.sh.now <= s'.sh.now
  {
    match who
    case Assigner => AssignGuarantee(s, s', faulty);
    case Beater =>
      if s.beat.Crashing? {
        CrashGuarantee(s, s', faulty);
      }
    case Caller(tid) =>
      assert CallLocal(s, tid);
      CallGuarantee(s, s', tid, faulty);
    case _ =>
  }

  lemma {:induction false} Later(states: seq<State>, actors: seq<Actor>, faulty: bool, j: nat, n: nat)
    requires Run(states, actors, faulty) && j <= n < |states|
    ensures states[j].sh.now <= states[n].sh.now
  {
    if j < n {
      Later(states, actors, faulty, j, n - 1);
      RunKeepsInv(states, actors, faulty, n - 1);
      TimePasses(states[n - 1], states[n], actors[n - 1], faulty);
    }
  }

  lemma ClockStaysSane(s: State, s': State, who: Actor, faulty: bool)
    requires Inv(s) && ClockSane(s) && Step(s, s', who, faulty)
    ensures ClockSane(s')
  {
    match who
    case Assigner =>
    case Beater =>
      TimePasses(s, s', who, faulty);
      if s.beat.Crashing? {
        CrashGuarantee(s, s', faulty);
      }
    case Caller(tid) =>
      assert CallLocal(s, tid);
      CallGuarantee(s, s', tid, faulty);
    case _ =>
  }

  lemma {:induction false} ClockIsSane(states: seq<State>, actors: seq<Actor>, faulty: bool, n: nat)
    requires Run(states, actors, faulty) && n < |states|
    ensures ClockSane(states[n])
  {
    if n > 0 {
      ClockIsSane(states, actors, faulty, n - 1);
      RunKeepsInv(states, actors, faulty, n - 1);
      ClockStaysSane(states[n - 1], states[n], actors[n - 1], faulty);
    }
  }

  // ---------------------------------------------------------------- the sentinel

  /** The agent's cooldown entry. */
  predicate Entry(h: Shared, a: AgentId, until: Time) {
    a in h.cooldown && h.cooldown[a] == until
  }

  /** No step touches the entry while the crash goes on. */
  lemma EntryKept(s: State, s': State, who: Actor, faulty: bool, until: Time)
    requires Inv(s) && Step(s, s', who, faulty) && PastSentinel(s.beat) && PastSentinel(s'.beat)
    requires Entry(s.sh, s.beat.agent, until)
    ensures s'.beat.agent == s.beat.agent && Entry(s'.sh, s.beat.agent, until)
  {
    match who
    case Assigner =>
      AssignGuarantee(s, s', faulty);
      assert Undisturbed(s.sh, s'.sh, s.beat.agent);
    case Caller(tid) =>
      assert CallLocal(s, tid);
      CallGuarantee(s, s', tid, faulty);
      assert Undisturbed(s.sh, s'.sh, s.beat.agent);
    case _ =>
  }

  /** From its sentinel to the recording, a crash's agent is cooling for 24 hours from the sentinel on. */
  lemma {:induction false} SentinelHolds(states: seq<State>, actors: seq<Actor>, faulty: bool, j: nat, n: nat)
    requires Run(states, actors, faulty) && Guarding(states, actors, j, n)
    ensures states[n].beat.agent == states[j].beat.agent
    ensures Entry(states[n].sh, states[j].beat.agent, states[j].sh.now + SENTINEL)
  {
    assert Step(states[n - 1], states[n], actors[n - 1], faulty);
    if n > j + 1 {
      assert Guarding(states, actors, j, n - 1);
      SentinelHolds(states, actors, faulty, j, n - 1);
      RunKeepsInv(states, actors, faulty, n - 1);
      EntryKept(states[n - 1], states[n], actors[n - 1], faulty, states[j].sh.now + SENTINEL);
    }
  }

  /** A crash gets past its sentinel in one way only. */
  lemma GetsPast(s: State, s': State, who: Actor, faulty: bool)
    requires Inv(s) && Step(s, s', who, faulty) && !PastSentinel(s.beat) && PastSentinel(s'.beat)
    ensures who == Beater && AtSentinel(s)
  {
    match who
    case Assigner => AssignGuarantee(s, s', faulty);
    case Caller(tid) =>
      assert CallLocal(s, tid);
      CallGuarantee(s, s', tid, faulty);
    case _ =>
  }

  /** Every crash past its sentinel has set it. */
  lemma {:induction false} SentinelWasSet(states: seq<State>, actors: seq<Actor>, faulty: bool, n: nat) returns (j: nat)
    requires Run(states, actors, faulty) && n < |states| && PastSentinel(states[n].beat)
    ensures Guarding(states, actors, j, n)
  {
    RunKeepsInv(states, actors, faulty, n - 1);
    assert Step(states[n - 1], states[n], actors[n - 1], faulty);
    if PastSentinel(states[n - 1].beat) {
      j := SentinelWasSet(states, actors, faulty, n - 1);
      forall k | j < k <= n ensures PastSentinel(states[k].beat) {
      }
    } else {
      j := n - 1;
      GetsPast(states[j], states[n], actors[j], faulty);
    }
  }

  // ---------------------------------------------------------------- what it is worth

  /** So findIdleAgent can come upon an exposed agent only where a crash has taken 24 hours. */
  lemma ExposedIsLate(states: seq<State>, actors: seq<Actor>, faulty: bool, n: nat) returns (j: nat)
    requires Run(states, actors, faulty) && n < |states| && Exposed(states[n])
    ensures Guarding(states, actors, j, n) && states[j].beat.agent == states[n].assign.find.candidate
    ensures states[n].sh.now - states[j].sh.now >= SENTINEL
  {
    j := SentinelWasSet(states, actors, faulty, n);
    SentinelHolds(states, actors, faulty, j, n);
    ClockIsSane(states, actors, faulty, n);
  }

  lemma PromptIsUnexposed(states: seq<State>, actors: seq<Actor>, faulty: bool, n: nat)
    requires Run(states, actors, faulty) && n < |states| && Prompt(states, actors, n, SENTINEL)
    ensures forall i :: 0 <= i < n ==> !Exposed(states[i])
  {
    forall i | 0 <= i < n ensures !Exposed(states[i]) {
      if Exposed(states[i]) {
        var _ := ExposedIsLate(states, actors, faulty, i);
      }
    }
  }

  /**
   Whatever fails and however threads interleave: as long as every crash has come from
   its sentinel to its recorded decision in less than 24 hours, an agent whose recorded
   backoff has not expired, or whose circuit was opened, is idle.
   */
  lemma ExcludedAgentsRest(states: seq<State>, actors: seq<Actor>, faulty: bool, n: nat, a: AgentId)
    requires Run(states, actors, faulty) && n < |states| && Prompt(states, actors, n, SENTINEL)
    requires Excluded(states[n].sh, a)
    ensures a in states[n].sh.agents && states[n].sh.agents[a].state == Idle
  {
    PromptIsUnexposed(states, actors, faulty, n);
    UnexposedAgentsRest(states, actors, faulty, n, a);
  }

  /** And an opened circuit stays open, with its agent idle, in every later state of such a run. */
  lemma OpenCircuitIsFinal(states: seq<State>, actors: seq<Actor>, faulty: bool, m: nat, n: nat, a: AgentId)
    requires Run(states, actors, faulty) && m <= n < |states| && Prompt(states, actors, n, SENTINEL)
    requires a in states[m].sh.bans && states[m].sh.bans[a] == Forever
    ensures a in states[n].sh.bans && states[n].sh.bans[a] == Forever
    ensures a in states[n].sh.agents && states[n].sh.agents[a].state == Idle
  {
    PromptIsUnexposed(states, actors, faulty, n);
    UnexposedCircuitIsFinal(states, actors, faulty, m, n, a);
    UnexposedAgentsRest(states, actors, faulty, n, a);
  }

  // ---------------------------------------------------------------- why agents are crashed at all

  lemma CrashGoesOn(s: State, s': State, faulty: bool)
    requires s.beat.Crashing? && CrashStep(s, s', s.beat, faulty) && s'.beat.Crashing?
    ensures s'.beat.agent == s.beat.agent && s'.beat.now == s.beat.now
  {
  }

  /** A step that takes up a crash finds the agent not idle and silent for longer than the threshold. */
  lemma CrashBegins(s: State, s': State, who: Actor, faulty: bool)
    requires Inv(s) && Step(s, s', who, faulty) && s'.beat.Crashing?
    ensures || (s.beat.Crashing? && s'.beat.agent == s.beat.agent && s'.beat.now == s.beat.now)
            || (var a := s'.beat.agent;
                a in s.sh.agents && s.sh.agents[a].state != Idle
                && Millis(s'.beat.now) - s.sh.agents[a].lastHeartbeat > s.sh.staleMillis)
  {
    match who
    case Assigner => AssignGuarantee(s, s', faulty);
    case Beater =>
      if s.beat.Crashing? {
        CrashGoesOn(s, s', faulty);
      }
    case Caller(tid) =>
      assert CallLocal(s, tid);
      CallGuarantee(s, s', tid, faulty);
    case _ =>
  }

  /**
   No agent is crashed without reason: whenever crashAgent is at work on an agent, the sweep
   saw it before, not idle and its last heartbeat further back than the threshold.
   */
  lemma {:induction false} CrashNeedsSilence(states: seq<State>, actors: seq<Actor>, faulty: bool, n: nat)
    returns (i: nat)
    requires Run(states, actors, faulty) && n < |states| && states[n].beat.Crashing?
    ensures i < n
    ensures var a, h := states[n].beat.agent, states[i].sh;
            && a in h.agents && h.agents[a].state != Idle
            && Millis(states[n].beat.now) - h.agents[a].lastHeartbeat > h.staleMillis
  {
    RunKeepsInv(states, actors, faulty, n - 1);
    CrashBegins(states[n - 1], states[n], actors[n - 1], faulty);
    i := n - 1;
    var s, s' := states[n - 1], states[n];
    if s.beat.Crashing? && s'.beat.agent == s.beat.agent && s'.beat.now == s.beat.now {
      i := CrashNeedsSilence(states, actors, faulty, n - 1);
    }
  }
}
