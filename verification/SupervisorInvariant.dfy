/**
 What every step of the supervisor keeps, by rely and guarantee.  A step of one
 thread may disturb an agent's record and exclusion entries only while it holds
 the agent's mutex; every other thread's local copies stay true.  `Guarantee` is
 what a step promises about the agents that others have locked, and the `Stable`
 lemmas say that what a thread knows survives any step with this promise.
 */
module SupervisorInvariant {
  import opened Types
  import opened Agent
  import opened SupervisorSystem

  // ---------------------------------------------------------------- who is inside

  predicate AssignInside(p: AssignPc) {
    p.Unlocking? || (p.Binding? && !p.bind.Mutex? && !p.bind.Lock?)
  }

  predicate BeatInside(p: BeatPc) {
    p.Crashing? && !p.crash.BMutex? && !p.crash.BLock?
  }

  predicate CallInside(c: Call) {
    match c
    case Register(_, _) => false
    case Heartbeat(_, h) => !h.HMutex? && !h.HLock?
    case Work(_, _, w) => w.WUnlock? || (w.WRead? && w.locked) || (w.WCas? && w.locked)
    case Done(_, _, d) => !d.DMutex? && !d.DLock?
  }

  predicate Holds(h: Shared, a: AgentId, o: Owner) {
    a in h.holder && h.holder[a] == o
  }

  // ---------------------------------------------------------------- what a thread knows

  predicate SameBinding(f: Fields, g: Fields) {
    f.task == g.task && f.priority == g.priority
  }

  predicate AssignLocal(s: State) {
    var p := s.assign;
    && (AssignInside(p) ==> Holds(s.sh, p.agent, AssignLoop))
    && (p.Binding? && (p.bind.GetFields? || p.bind.SetFields?) ==>
          p.agent in s.sh.agents && Busy(s.sh.agents[p.agent].state))
    && (p.Binding? && p.bind.SetFields? ==> Busy(p.bind.cur.state))
    && (p.Binding? && p.bind.Cas? ==> p.bind.seen == Idle)
  }

  predicate CrashKnows(s: State, a: AgentId, c: CrashPc) {
    match c
    case BSentinel(pre) => a in s.sh.agents && SameBinding(s.sh.agents[a], pre)
    case BRead(pre) => a in s.sh.agents && SameBinding(s.sh.agents[a], pre)
    case BCas(pre, _) => a in s.sh.agents && SameBinding(s.sh.agents[a], pre)
    case BEnqueue(_) => a in s.sh.agents && !Busy(s.sh.agents[a].state)
    case BPolicy => a in s.sh.agents && !Busy(s.sh.agents[a].state)
    case BRecord(_) => a in s.sh.agents && !Busy(s.sh.agents[a].state)
    case _ => true
  }

  predicate BeatLocal(s: State) {
    && (BeatInside(s.beat) ==> Holds(s.sh, s.beat.agent, HeartbeatLoop) && s.beat.agent in s.sh.mutexes)
    && (s.beat.Crashing? && s.beat.crash.BLock? ==> s.beat.agent in s.sh.mutexes)
    && (s.beat.Crashing? ==> CrashKnows(s, s.beat.agent, s.beat.crash))
  }

  predicate DoneKnows(s: State, a: AgentId, d: DonePc) {
    match d
    case DCas(seen) => seen == Reporting
    case DFields(done) => a in s.sh.agents && !Busy(s.sh.agents[a].state) && s.sh.agents[a].task == done.id
    case DSignal(_, _) => a in s.sh.agents && !Busy(s.sh.agents[a].state)
    case DClear => a in s.sh.agents && !Busy(s.sh.agents[a].state)
    case DReset => a in s.sh.agents && !Busy(s.sh.agents[a].state)
    case _ => true
  }

  predicate CallKnows(s: State, c: Call) {
    match c
    case Register(a, r) => a in s.sh.issued && (r.RStore? ==> a !in s.sh.agents)
    case Heartbeat(a, h) =>
      h.HWrite? ==>
        && a in s.sh.agents && SameBinding(s.sh.agents[a], h.cur)
        && Busy(h.cur.state) == Busy(s.sh.agents[a].state)
    case Work(_, e, w) => e == WorkStarted || e == OutputReady
    case Done(a, _, d) => DoneKnows(s, a, d)
  }

  predicate CallLocal(s: State, tid: nat)
    requires tid in s.calls
  {
    var c := s.calls[tid];
    (CallInside(c) ==> Holds(s.sh, c.agent, Rpc(tid))) && CallKnows(s, c)
  }

  predicate Registering(s: State, tid: nat, a: AgentId) {
    tid in s.calls && s.calls[tid].Register? && s.calls[tid].register.RStore? && s.calls[tid].agent == a
  }

  /** Registration never meets a used id, and no two registrations share one. */
  ghost predicate Registration(s: State) {
    && (forall a :: a in s.sh.agents ==> a in s.sh.issued)
    && (forall i, j, a :: Registering(s, i, a) && Registering(s, j, a) ==> i == j)
  }

  /** Whether the assignment loop has a task in hand. */
  predicate HasTask(p: AssignPc) {
    !p.Ready? && !p.Unlocking?
  }

  ghost predicate Inv(s: State) {
    && AssignLocal(s)
    && BeatLocal(s)
    && (forall tid :: tid in s.calls ==> CallLocal(s, tid))
    && Registration(s)
  }

  // ---------------------------------------------------------------- rely and guarantee

  /** What stays true of an agent while someone else holds its mutex. */
  predicate Undisturbed(h: Shared, h': Shared, a: AgentId) {
    && (a in h.agents ==> a in h'.agents && SameBinding(h.agents[a], h'.agents[a])
                          && Busy(h.agents[a].state) == Busy(h'.agents[a].state))
    && (a in h.circuit) == (a in h'.circuit)
    && (a in h.cooldown) == (a in h'.cooldown)
    && (a in h.cooldown ==> h.cooldown[a] == h'.cooldown[a])
    && (a in h.bans) == (a in h'.bans)
    && (a in h.bans ==> h.bans[a] == h'.bans[a])
  }

  /** A step of thread `me`, which may register `added`, leaves alone what others have locked. */
  ghost predicate Guarantee(h: Shared, h': Shared, me: Owner, added: set<AgentId>) {
    && h.now <= h'.now
    && h.issued <= h'.issued
    && h.mutexes <= h'.mutexes
    && (forall a :: a in h'.agents ==> a in h.agents || a in added)
    && (forall a :: a in h.agents ==> a in h'.agents)
    && (forall a :: a in h.holder && h.holder[a] != me ==> Holds(h', a, h.holder[a]) && Undisturbed(h, h', a))
  }

  lemma AssignStable(s: State, s': State, me: Owner, added: set<AgentId>)
    requires AssignLocal(s) && Guarantee(s.sh, s'.sh, me, added) && me != AssignLoop && s'.assign == s.assign
    ensures AssignLocal(s')
  {
    if AssignInside(s.assign) {
      assert Undisturbed(s.sh, s'.sh, s.assign.agent);
    }
  }

  lemma BeatStable(s: State, s': State, me: Owner, added: set<AgentId>)
    requires BeatLocal(s) && Guarantee(s.sh, s'.sh, me, added) && me != HeartbeatLoop && s'.beat == s.beat
    ensures BeatLocal(s')
  {
    if BeatInside(s.beat) {
      assert Undisturbed(s.sh, s'.sh, s.beat.agent);
    }
  }

  lemma CallStable(s: State, s': State, me: Owner, added: set<AgentId>, tid: nat)
    requires tid in s.calls && tid in s'.calls && s'.calls[tid] == s.calls[tid]
    requires CallLocal(s, tid) && Guarantee(s.sh, s'.sh, me, added) && me != Rpc(tid)
    requires s.calls[tid].Register? && s.calls[tid].register.RStore? ==> s.calls[tid].agent !in added
    ensures CallLocal(s', tid)
  {
    if CallInside(s.calls[tid]) {
      assert Undisturbed(s.sh, s'.sh, s.calls[tid].agent);
    }
  }

  // ---------------------------------------------------------------- the assignment loop

  lemma BindGuarantee(s: State, s': State, faulty: bool)
    requires AssignLocal(s) && s.assign.Binding?
    requires BindStep(s, s', s.assign.task, s.assign.agent, s.assign.bind, faulty)
    ensures Guarantee(s.sh, s'.sh, AssignLoop, {}) && AssignLocal(s')
    ensures s'.beat == s.beat && s'.calls == s.calls
  {
  }

  lemma AssignGuarantee(s: State, s': State, faulty: bool)
    requires AssignLocal(s) && AssignStep(s, s', faulty)
    ensures Guarantee(s.sh, s'.sh, AssignLoop, {}) && AssignLocal(s')
    ensures s'.beat == s.beat && s'.calls == s.calls
  {
    if s.assign.Binding? {
      BindGuarantee(s, s', faulty);
    }
  }

  lemma AssignKeepsInv(s: State, s': State, faulty: bool)
    requires Inv(s) && AssignStep(s, s', faulty)
    ensures Inv(s')
  {
    AssignGuarantee(s, s', faulty);
    BeatStable(s, s', AssignLoop, {});
    forall tid | tid in s'.calls ensures CallLocal(s', tid) {
      CallStable(s, s', AssignLoop, {}, tid);
    }
    assert forall i, a :: Registering(s', i, a) ==> Registering(s, i, a);
  }

  // ---------------------------------------------------------------- the heartbeat loop

  /** The part of crashAgent that works out whether there is a crash at all. */
  predicate Deciding(c: CrashPc) {
    c.BMutex? || c.BLock? || c.BPreRead? || c.BSentinel? || c.BRead?
  }

  lemma DecidingGuarantee(s: State, s': State, faulty: bool)
    requires BeatLocal(s) && s.beat.Crashing? && Deciding(s.beat.crash) && CrashStep(s, s', s.beat, faulty)
    ensures Guarantee(s.sh, s'.sh, HeartbeatLoop, {}) && BeatLocal(s')
    ensures s'.assign == s.assign && s'.calls == s.calls
  {
  }

  lemma ActingGuarantee(s: State, s': State, faulty: bool)
    requires BeatLocal(s) && s.beat.Crashing? && !Deciding(s.beat.crash) && CrashStep(s, s', s.beat, faulty)
    ensures Guarantee(s.sh, s'.sh, HeartbeatLoop, {})
  {
  }

  lemma ActingStaysLocal(s: State, s': State, faulty: bool)
    requires BeatLocal(s) && s.beat.Crashing? && !Deciding(s.beat.crash) && CrashStep(s, s', s.beat, faulty)
    ensures BeatLocal(s') && s'.assign == s.assign && s'.calls == s.calls
  {
  }

  lemma CrashGuarantee(s: State, s': State, faulty: bool)
    requires BeatLocal(s) && s.beat.Crashing? && CrashStep(s, s', s.beat, faulty)
    ensures Guarantee(s.sh, s'.sh, HeartbeatLoop, {}) && BeatLocal(s')
    ensures s'.assign == s.assign && s'.calls == s.calls
  {
    if Deciding(s.beat.crash) {
      DecidingGuarantee(s, s', faulty);
    } else {
      ActingGuarantee(s, s', faulty);
      ActingStaysLocal(s, s', faulty);
    }
  }

  lemma BeatKeepsInv(s: State, s': State, faulty: bool)
    requires Inv(s) && BeatStep(s, s', faulty)
    ensures Inv(s')
  {
    if s.beat.Crashing? {
      CrashGuarantee(s, s', faulty);
    }
    AssignStable(s, s', HeartbeatLoop, {});
    forall tid | tid in s'.calls ensures CallLocal(s', tid) {
      CallStable(s, s', HeartbeatLoop, {}, tid);
    }
    assert forall i, a :: Registering(s', i, a) ==> Registering(s, i, a);
  }

  // ---------------------------------------------------------------- the RPCs

  /** The step of call `tid` changes no other thread's program counter. */
  ghost predicate OnlyCall(s: State, s': State, tid: nat) {
    && s'.assign == s.assign && s'.beat == s.beat && s'.sh.queue == s.sh.queue
    && (forall i :: i != tid ==> (i in s.calls) == (i in s'.calls))
    && (forall i :: i != tid && i in s.calls && i in s'.calls ==> s.calls[i] == s'.calls[i])
    && (forall a :: Registering(s', tid, a) ==> Registering(s, tid, a))
  }

  /** The id a registration is about to write. */
  function FreshId(c: Call): set<AgentId> {
    if c.Register? && c.register.RStore? then {c.agent} else {}
  }

  lemma RegisterGuarantee(s: State, s': State, tid: nat, faulty: bool)
    requires tid in s.calls && CallLocal(s, tid) && s.calls[tid].Register?
    requires RegisterStep(s, s', tid, s.calls[tid], faulty)
    ensures Guarantee(s.sh, s'.sh, Rpc(tid), FreshId(s.calls[tid])) && OnlyCall(s, s', tid)
    ensures tid in s'.calls ==> CallLocal(s', tid)
  {
  }

  lemma HeartbeatGuarantee(s: State, s': State, tid: nat, faulty: bool)
    requires tid in s.calls && CallLocal(s, tid) && s.calls[tid].Heartbeat?
    requires HeartbeatStep(s, s', tid, s.calls[tid], faulty)
    ensures Guarantee(s.sh, s'.sh, Rpc(tid), {}) && OnlyCall(s, s', tid)
    ensures tid in s'.calls ==> CallLocal(s', tid)
  {
  }

  lemma WorkGuarantee(s: State, s': State, tid: nat, faulty: bool)
    requires tid in s.calls && CallLocal(s, tid) && s.calls[tid].Work?
    requires WorkStep(s, s', tid, s.calls[tid], faulty)
    ensures Guarantee(s.sh, s'.sh, Rpc(tid), {})
  {
  }

  lemma WorkStaysLocal(s: State, s': State, tid: nat, faulty: bool)
    requires tid in s.calls && CallLocal(s, tid) && s.calls[tid].Work?
    requires WorkStep(s, s', tid, s.calls[tid], faulty)
    ensures OnlyCall(s, s', tid)
    ensures tid in s'.calls ==> CallLocal(s', tid)
  {
  }

  lemma DoneGuarantee(s: State, s': State, tid: nat, faulty: bool)
    requires tid in s.calls && CallLocal(s, tid) && s.calls[tid].Done?
    requires DoneStep(s, s', tid, s.calls[tid], faulty)
    ensures Guarantee(s.sh, s'.sh, Rpc(tid), {})
  {
  }

  lemma DoneStaysLocal(s: State, s': State, tid: nat, faulty: bool)
    requires tid in s.calls && CallLocal(s, tid) && s.calls[tid].Done?
    requires DoneStep(s, s', tid, s.calls[tid], faulty)
    ensures OnlyCall(s, s', tid)
    ensures tid in s'.calls ==> CallLocal(s', tid)
  {
  }

  lemma CallGuarantee(s: State, s': State, tid: nat, faulty: bool)
    requires tid in s.calls && CallLocal(s, tid) && CallStep(s, s', tid, faulty)
    ensures Guarantee(s.sh, s'.sh, Rpc(tid), FreshId(s.calls[tid])) && OnlyCall(s, s', tid)
    ensures tid in s'.calls ==> CallLocal(s', tid)
  {
    match s.calls[tid]
    case Register(_, _) => RegisterGuarantee(s, s', tid, faulty);
    case Heartbeat(_, _) => HeartbeatGuarantee(s, s', tid, faulty);
    case Work(_, _, _) =>
      WorkGuarantee(s, s', tid, faulty);
      WorkStaysLocal(s, s', tid, faulty);
    case Done(_, _, _) =>
      DoneGuarantee(s, s', tid, faulty);
      DoneStaysLocal(s, s', tid, faulty);
  }

  lemma CallRegistration(s: State, s': State, tid: nat)
    requires Registration(s) && tid in s.calls && CallLocal(s, tid) && OnlyCall(s, s', tid)
    requires Guarantee(s.sh, s'.sh, Rpc(tid), FreshId(s.calls[tid]))
    ensures Registration(s')
  {
    assert forall i, a :: Registering(s', i, a) ==> Registering(s, i, a);
  }

  lemma CallKeepsInv(s: State, s': State, tid: nat, faulty: bool)
    requires Inv(s) && tid in s.calls && CallStep(s, s', tid, faulty)
    ensures Inv(s')
  {
    assert CallLocal(s, tid);
    var added := FreshId(s.calls[tid]);
    CallGuarantee(s, s', tid, faulty);
    AssignStable(s, s', Rpc(tid), added);
    BeatStable(s, s', Rpc(tid), added);
    CallRegistration(s, s', tid);
    forall i | i in s'.calls ensures CallLocal(s', i) {
      if i != tid {
        assert CallLocal(s, i);
        if s.calls[i].agent in added && FreshId(s.calls[i]) != {} {
          assert Registering(s, i, s.calls[i].agent) && Registering(s, tid, s.calls[i].agent);
        }
        CallStable(s, s', Rpc(tid), added, i);
      }
    }
  }

  // ---------------------------------------------------------------- every step, every run

  lemma ArriveKeepsInv(s: State, s': State, tid: nat, c: Call)
    requires Inv(s) && ArriveStep(s, s', tid, c)
    ensures Inv(s')
  {
    forall i | i in s'.calls ensures CallLocal(s', i) {
      if i != tid {
        assert CallLocal(s, i);
      }
    }
    forall i, j, a | Registering(s', i, a) && Registering(s', j, a) ensures i == j {
      if i != tid && Registering(s, i, a) {
        assert CallLocal(s, i);
      }
      if j != tid && Registering(s, j, a) {
        assert CallLocal(s, j);
      }
    }
  }

  lemma EnvironmentKeepsInv(s: State, s': State, who: Actor, faulty: bool)
    requires Inv(s) && Step(s, s', who, faulty) && (who.Submitter? || who.Ticker?)
    ensures Inv(s')
  {
    forall i | i in s'.calls ensures CallLocal(s', i) {
      assert CallLocal(s, i);
    }
    assert forall i, a :: Registering(s', i, a) ==> Registering(s, i, a);
  }

  lemma StepKeepsInv(s: State, s': State, who: Actor, faulty: bool)
    requires Inv(s) && Step(s, s', who, faulty)
    ensures Inv(s')
  {
    match who
    case Assigner => AssignKeepsInv(s, s', faulty);
    case Beater => BeatKeepsInv(s, s', faulty);
    case Caller(tid) => CallKeepsInv(s, s', tid, faulty);
    case Submitter(t) => EnvironmentKeepsInv(s, s', who, faulty);
    case Arriver(tid, c) => ArriveKeepsInv(s, s', tid, c);
    case Ticker => EnvironmentKeepsInv(s, s', who, faulty);
  }

  lemma {:induction false} RunKeepsInv(states: seq<State>, actors: seq<Actor>, faulty: bool, n: nat)
    requires Run(states, actors, faulty) && n < |states|
    ensures Inv(states[n])
  {
    if n > 0 {
      RunKeepsInv(states, actors, faulty, n - 1);
      StepKeepsInv(states[n - 1], states[n], actors[n - 1], faulty);
    }
  }
}
