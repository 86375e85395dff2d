/**
 No agent is given work while the restart policy excludes it, as long as the
 recheck of findIdleAgent never comes upon an exposed agent.  The proof covers
 every interleaving of findIdleAgent's unlocked snapshot, its state read and its
 recheck with crashAgent's transition and policy steps; Sentinel.dfy shows that
 crashAgent's sentinel keeps its agent from being exposed.
 */
module Exclusion {
  import opened Types
  import opened Agent
  import opened SupervisorSystem
  import opened SupervisorInvariant

  /** The exclusion last recorded for `a` still stands. */
  predicate Excluded(h: Shared, a: AgentId) {
    a in h.bans && match h.bans[a] case Forever => true case Until(e) => h.now < e
  }

  predicate AtRest(h: Shared, a: AgentId) {
    a in h.agents && !Busy(h.agents[a].state)
  }

  /** An excluded agent is idle, and the maps findIdleAgent consults say so. */
  predicate Visible(h: Shared, a: AgentId) {
    && AtRest(h, a)
    && a in h.bans
    && (h.bans[a].Forever? ==> a in h.circuit)
    && (h.bans[a].Until? ==> a in h.cooldown && h.cooldown[a] == h.bans[a].expiry)
  }

  /** crashAgent after it moved the agent to idle and before it recorded the decision. */
  predicate Deposed(p: BeatPc, a: AgentId) {
    p.Crashing? && p.agent == a && (p.crash.BEnqueue? || p.crash.BPolicy? || p.crash.BRecord?)
  }

  /** crashAgent has its decision, and recording it will lift the agent's exclusion rather than set one. */
  predicate Lenient(p: BeatPc) {
    p.Crashing? && p.crash.BRecord? && p.crash.decision.shouldRestart && p.crash.decision.backoff <= 0
  }

  /**
   The recheck is about to admit an agent that a crash has moved to idle and is about to
   exclude.
   */
  predicate Exposed(s: State) {
    && s.assign.Finding? && s.assign.find.Recheck?
    && s.assign.find.candidate !in s.sh.circuit
    && !Cooling(s.sh.cooldown, s.assign.find.candidate, s.assign.find.snap.now)
    && Deposed(s.beat, s.assign.find.candidate) && !Lenient(s.beat)
  }

  /** An agent was picked and its transition to ASSIGNED is still ahead. */
  predicate Picked(p: AssignPc) {
    p.Binding? && (p.bind.Mutex? || p.bind.Lock? || p.bind.Read? || p.bind.Cas?)
  }

  /** The clock reading findIdleAgent compares with is never ahead of the clock. */
  predicate ClockSane(s: State) {
    s.assign.Finding? ==>
      && (s.assign.find.Scan? ==> s.assign.find.snap.now <= s.sh.now)
      && (s.assign.find.Recheck? ==> s.assign.find.snap.now <= s.sh.now)
  }

  ghost predicate Bans(s: State) {
    forall a :: Excluded(s.sh, a) ==> Visible(s.sh, a)
  }

  /** crashAgent runs on an agent it saw busy, so no exclusion can stand. */
  predicate CrashUnbanned(s: State) {
    s.beat.Crashing? && !s.beat.crash.BUnlock? ==> !Excluded(s.sh, s.beat.agent)
  }

  /** completeAgent past its transition runs on an agent that was busy under the same mutex. */
  predicate DoneUnbanned(s: State, c: Call) {
    c.Done? && (c.done.DFields? || c.done.DSignal? || c.done.DClear? || c.done.DReset?) ==> !Excluded(s.sh, c.agent)
  }

  /** A crash of the agent is about to exclude it. */
  predicate Threatened(p: BeatPc, a: AgentId) {
    Deposed(p, a) && !Lenient(p)
  }

  /** A candidate stays idle, and once picked nothing excludes it or is about to. */
  predicate CandidateClear(s: State) {
    && (s.assign.Finding? && s.assign.find.Recheck? ==> AtRest(s.sh, s.assign.find.candidate))
    && (Picked(s.assign) ==>
          AtRest(s.sh, s.assign.agent) && !Excluded(s.sh, s.assign.agent) && !Threatened(s.beat, s.assign.agent))
  }

  ghost predicate Safe(s: State) {
    && Bans(s)
    && CrashUnbanned(s)
    && (forall tid :: tid in s.calls ==> DoneUnbanned(s, s.calls[tid]))
    && CandidateClear(s)
    && ClockSane(s)
  }

  // ---------------------------------------------------------------- the assignment loop

  /** An agent that passes the recheck is clear of exclusions, and of crashes about to exclude it. */
  lemma RecheckClears(s: State, a: AgentId)
    requires Safe(s) && !Exposed(s) && s.assign.Finding? && s.assign.find.Recheck? && s.assign.find.candidate == a
    requires a !in s.sh.circuit && !Cooling(s.sh.cooldown, a, s.assign.find.snap.now)
    ensures !Excluded(s.sh, a) && !Threatened(s.beat, a)
  {
  }

  lemma FindSafe(s: State, s': State, faulty: bool)
    requires Safe(s) && !Exposed(s) && s.assign.Finding? && AssignStep(s, s', faulty)
    ensures Safe(s')
  {
    if s.assign.find.Recheck? && s'.assign.Binding? {
      RecheckClears(s, s'.assign.agent);
    }
  }

  lemma BindSafe(s: State, s': State, faulty: bool)
    requires Safe(s) && AssignLocal(s) && s.assign.Binding?
    requires BindStep(s, s', s.assign.task, s.assign.agent, s.assign.bind, faulty)
    ensures Bans(s') && CandidateClear(s')
  {
    forall a | Excluded(s'.sh, a) ensures Visible(s'.sh, a) {
      assert Excluded(s.sh, a) && Visible(s.sh, a);
    }
  }

  lemma AssignSafe(s: State, s': State, faulty: bool)
    requires Safe(s) && !Exposed(s) && AssignLocal(s) && AssignStep(s, s', faulty)
    ensures Safe(s')
  {
    match s.assign
    case Finding(t, f) => FindSafe(s, s', faulty);
    case Binding(t, a, b) =>
      BindSafe(s, s', faulty);
      assert s'.beat == s.beat && s'.calls == s.calls && s'.sh.cooldown == s.sh.cooldown;
      assert s'.sh.bans == s.sh.bans && s'.sh.now == s.sh.now;
    case _ =>
      assert s'.sh.agents == s.sh.agents && s'.sh.bans == s.sh.bans && s'.sh.now == s.sh.now;
      forall a | Excluded(s'.sh, a) ensures Visible(s'.sh, a) {
        assert Excluded(s.sh, a) && Visible(s.sh, a);
      }
  }

  // ---------------------------------------------------------------- the heartbeat loop

  lemma DecidingSafe(s: State, s': State, faulty: bool)
    requires Safe(s) && s.beat.Crashing? && Deciding(s.beat.crash) && CrashStep(s, s', s.beat, faulty)
    ensures Bans(s') && CrashUnbanned(s')
  {
    forall a | Excluded(s'.sh, a) ensures Visible(s'.sh, a) {
      assert Excluded(s.sh, a) && Visible(s.sh, a);
    }
  }

  lemma ActingSafe(s: State, s': State, faulty: bool)
    requires Safe(s) && BeatLocal(s) && s.beat.Crashing? && !Deciding(s.beat.crash) && CrashStep(s, s', s.beat, faulty)
    ensures Bans(s') && CrashUnbanned(s')
  {
    forall a | Excluded(s'.sh, a) ensures Visible(s'.sh, a) {
      if a != s.beat.agent {
        assert Excluded(s.sh, a) && Visible(s.sh, a);
      } else {
        assert Excluded(s.sh, a) ==> Visible(s.sh, a);
      }
    }
  }

  lemma CrashClear(s: State, s': State, faulty: bool)
    requires Safe(s) && s.beat.Crashing? && CrashStep(s, s', s.beat, faulty)
    ensures CandidateClear(s') && ClockSane(s')
  {
  }

  /** What is known under a mutex about exclusion survives the steps of others. */
  lemma DoneUnbannedStable(s: State, s': State, me: Owner, added: set<AgentId>, tid: nat)
    requires tid in s.calls && CallLocal(s, tid) && DoneUnbanned(s, s.calls[tid])
    requires Guarantee(s.sh, s'.sh, me, added) && me != Rpc(tid)
    ensures DoneUnbanned(s', s.calls[tid])
  {
    if CallInside(s.calls[tid]) {
      assert Undisturbed(s.sh, s'.sh, s.calls[tid].agent);
    }
  }

  lemma CheckSafe(s: State, s': State, faulty: bool)
    requires Safe(s) && !s.beat.Crashing? && BeatStep(s, s', faulty)
    ensures Safe(s')
  {
    assert s'.beat.Crashing? && Excluded(s.sh, s'.beat.agent) ==> Visible(s.sh, s'.beat.agent);
  }

  lemma BeatSafe(s: State, s': State, faulty: bool)
    requires Safe(s) && Inv(s) && BeatStep(s, s', faulty)
    ensures Safe(s')
  {
    if !s.beat.Crashing? {
      CheckSafe(s, s', faulty);
    } else {
      if Deciding(s.beat.crash) {
        DecidingSafe(s, s', faulty);
      } else {
        ActingSafe(s, s', faulty);
      }
      CrashClear(s, s', faulty);
      CrashGuarantee(s, s', faulty);
      forall tid | tid in s'.calls ensures DoneUnbanned(s', s'.calls[tid]) {
        assert CallLocal(s, tid) && DoneUnbanned(s, s.calls[tid]);
        DoneUnbannedStable(s, s', HeartbeatLoop, {}, tid);
      }
    }
  }

  // ---------------------------------------------------------------- the RPCs

  /** What a call may do to exclusion: idle agents rest, and only its own unexcluded agent loses entries. */
  ghost predicate Harmless(s: State, s': State, tid: nat)
    requires tid in s.calls
  {
    var a := s.calls[tid].agent;
    && s'.sh.bans == s.sh.bans && s'.sh.now == s.sh.now
    && (forall b :: AtRest(s.sh, b) ==> AtRest(s'.sh, b))
    && (forall b :: b in s.sh.circuit && b !in s'.sh.circuit ==> b == a && !Excluded(s.sh, a))
    && (forall b :: b in s.sh.cooldown && b !in s'.sh.cooldown ==> b == a && !Excluded(s.sh, a))
    && (forall b :: b in s.sh.cooldown && b in s'.sh.cooldown ==> s'.sh.cooldown[b] == s.sh.cooldown[b])
    && (tid in s'.calls ==> DoneUnbanned(s', s'.calls[tid]))
  }

  lemma PlainHarmless(s: State, s': State, tid: nat, faulty: bool)
    requires tid in s.calls && CallLocal(s, tid) && !s.calls[tid].Done? && CallStep(s, s', tid, faulty)
    ensures Harmless(s, s', tid)
  {
  }

  lemma DoneHarmless(s: State, s': State, tid: nat, faulty: bool)
    requires Bans(s) && tid in s.calls && CallLocal(s, tid) && DoneUnbanned(s, s.calls[tid]) && s.calls[tid].Done?
    requires DoneStep(s, s', tid, s.calls[tid], faulty)
    ensures Harmless(s, s', tid)
  {
    var a := s.calls[tid].agent;
    assert Excluded(s.sh, a) ==> Visible(s.sh, a);
  }

  lemma HarmlessBans(s: State, s': State, tid: nat)
    requires Bans(s) && tid in s.calls && Harmless(s, s', tid)
    ensures Bans(s')
  {
    forall a | Excluded(s'.sh, a) ensures Visible(s'.sh, a) {
      assert Excluded(s.sh, a) && Visible(s.sh, a);
    }
  }

  lemma CallSafe(s: State, s': State, tid: nat, faulty: bool)
    requires Safe(s) && Inv(s) && tid in s.calls && CallStep(s, s', tid, faulty)
    ensures Safe(s')
  {
    assert CallLocal(s, tid) && DoneUnbanned(s, s.calls[tid]);
    if s.calls[tid].Done? {
      DoneHarmless(s, s', tid, faulty);
    } else {
      PlainHarmless(s, s', tid, faulty);
    }
    HarmlessBans(s, s', tid);
    CallGuarantee(s, s', tid, faulty);
    if BeatInside(s.beat) {
      assert Undisturbed(s.sh, s'.sh, s.beat.agent);
    }
    forall i | i in s'.calls ensures DoneUnbanned(s', s'.calls[i]) {
      if i != tid {
        assert CallLocal(s, i) && DoneUnbanned(s, s.calls[i]);
        DoneUnbannedStable(s, s', Rpc(tid), FreshId(s.calls[tid]), i);
      }
    }
  }

  // ---------------------------------------------------------------- every step, every run

  lemma StepSafe(s: State, s': State, who: Actor, faulty: bool)
    requires Safe(s) && Inv(s) && !Exposed(s) && Step(s, s', who, faulty)
    ensures Safe(s')
  {
    match who
    case Assigner => AssignSafe(s, s', faulty);
    case Beater => BeatSafe(s, s', faulty);
    case Caller(tid) => CallSafe(s, s', tid, faulty);
    case _ =>
      forall a | Excluded(s'.sh, a) ensures Visible(s'.sh, a) {
        assert Excluded(s.sh, a) && Visible(s.sh, a);
      }
      forall i | i in s'.calls ensures DoneUnbanned(s', s'.calls[i]) {
        assert i in s.calls ==> DoneUnbanned(s, s.calls[i]);
      }
  }

  lemma {:induction false} RunSafe(states: seq<State>, actors: seq<Actor>, faulty: bool, n: nat)
    requires Run(states, actors, faulty) && n < |states|
    requires forall i :: 0 <= i < n ==> !Exposed(states[i])
    ensures Safe(states[n])
  {
    if n > 0 {
      RunSafe(states, actors, faulty, n - 1);
      RunKeepsInv(states, actors, faulty, n - 1);
      StepSafe(states[n - 1], states[n], actors[n - 1], faulty);
    }
  }

  lemma AssignKeepsBans(s: State, s': State, faulty: bool)
    requires AssignStep(s, s', faulty)
    ensures s'.sh.bans == s.sh.bans
  {
    if s.assign.Binding? {
      assert BindStep(s, s', s.assign.task, s.assign.agent, s.assign.bind, faulty);
    }
  }

  lemma CallKeepsBans(s: State, s': State, tid: nat, faulty: bool)
    requires tid in s.calls && CallStep(s, s', tid, faulty)
    ensures s'.sh.bans == s.sh.bans
  {
    if s.calls[tid].Done? {
      assert DoneStep(s, s', tid, s.calls[tid], faulty);
    }
  }

  lemma OthersKeepBans(s: State, s': State, who: Actor, faulty: bool)
    requires Step(s, s', who, faulty) && !who.Beater?
    ensures s'.sh.bans == s.sh.bans
  {
    match who
    case Assigner => AssignKeepsBans(s, s', faulty);
    case Caller(tid) => CallKeepsBans(s, s', tid, faulty);
    case _ =>
  }

  lemma BansKept(s: State, s': State, who: Actor, faulty: bool, a: AgentId)
    requires CrashUnbanned(s) && Step(s, s', who, faulty) && Excluded(s.sh, a)
    ensures a in s'.sh.bans && s'.sh.bans[a] == s.sh.bans[a]
  {
    if !who.Beater? {
      OthersKeepBans(s, s', who, faulty);
    }
  }

  /** Without an exposed state before it, an excluded agent is idle. */
  lemma UnexposedAgentsRest(states: seq<State>, actors: seq<Actor>, faulty: bool, n: nat, a: AgentId)
    requires Run(states, actors, faulty) && n < |states|
    requires forall i :: 0 <= i < n ==> !Exposed(states[i])
    requires Excluded(states[n].sh, a)
    ensures a in states[n].sh.agents && states[n].sh.agents[a].state == Idle
  {
    RunSafe(states, actors, faulty, n);
    assert Visible(states[n].sh, a);
  }

  /** And an opened circuit stays open. */
  lemma {:induction false} UnexposedCircuitIsFinal(states: seq<State>, actors: seq<Actor>, faulty: bool,
                                                   m: nat, n: nat, a: AgentId)
    requires Run(states, actors, faulty) && m <= n < |states|
    requires forall i :: 0 <= i < n ==> !Exposed(states[i])
    requires a in states[m].sh.bans && states[m].sh.bans[a] == Forever
    ensures a in states[n].sh.bans && states[n].sh.bans[a] == Forever
  {
    if m < n {
      UnexposedCircuitIsFinal(states, actors, faulty, m, n - 1, a);
      RunSafe(states, actors, faulty, n - 1);
      BansKept(states[n - 1], states[n], actors[n - 1], faulty, a);
    }
  }
}
