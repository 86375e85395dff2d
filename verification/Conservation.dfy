/**
 No task disappears and none is duplicated.  With a failure-free store the
 submitted tasks are exactly those queued, in hand, held or delivered, over
 every interleaving; with failing store calls none is ever dropped silently.
 Everything is counted for one arbitrary task `x` at a time.
 */
module Conservation {
  import opened Types
  import opened Agent
  import opened SupervisorSystem
  import opened SupervisorInvariant

  // ---------------------------------------------------------------- where tasks are

  /** The agent between its transition to ASSIGNED and the write of its task binding. */
  predicate Unbound(p: AssignPc, a: AgentId) {
    p.Binding? && (p.bind.GetFields? || p.bind.SetFields?) && p.agent == a
  }

  /** A non-idle agent holds the task its record binds, unless that binding is not written yet. */
  predicate Holding(h: Shared, p: AssignPc, a: AgentId, x: Task) {
    a in h.agents && Busy(h.agents[a].state) && !Unbound(p, a)
    && x.id != "" && h.agents[a].task == x.id && h.agents[a].priority == x.priority
  }

  /** The agents that hold task `x`. */
  ghost function Holders(s: State, x: Task): set<AgentId> {
    set a | a in s.sh.agents && Holding(s.sh, s.assign, a, x)
  }

  function One(b: bool): nat {
    if b then 1 else 0
  }

  function AssignHand(p: AssignPc, x: Task): nat {
    One(HasTask(p) && p.task == x)
  }

  function BeatHand(p: BeatPc, x: Task): nat {
    One(p.Crashing? && p.crash.BEnqueue?
        && x.id != "" && p.crash.pre.task == x.id && p.crash.pre.priority == x.priority)
  }

  /** Copies of `x` that no agent holds. */
  ghost function Loose(s: State, x: Task): nat {
    multiset(s.sh.queue)[x] + AssignHand(s.assign, x) + BeatHand(s.beat, x) + s.hist.delivered[x] + s.hist.lost[x]
  }

  /** All copies of `x`. */
  ghost function Tracked(s: State, x: Task): nat {
    Loose(s, x) + |Holders(s, x)|
  }

  // ---------------------------------------------------------------- one record at a time

  function Slot(s: State, a: AgentId, x: Task): nat {
    One(Holding(s.sh, s.assign, a, x))
  }

  lemma HoldersSplit(s: State, a: AgentId, x: Task)
    ensures |Holders(s, x)| == |Holders(s, x) - {a}| + Slot(s, a, x)
  {
    if a !in Holders(s, x) {
      assert Holders(s, x) - {a} == Holders(s, x);
    }
  }

  /** The step from `s` to `s'` makes no agent but `a` gain or lose `x`. */
  ghost predicate OnlySlot(s: State, s': State, a: AgentId, x: Task) {
    forall b :: b != a ==> Holding(s'.sh, s'.assign, b, x) == Holding(s.sh, s.assign, b, x)
  }

  /** The copies outside slot `a` together with slot `a` are kept, or at least not diminished. */
  ghost predicate Conserves(s: State, s': State, a: AgentId, x: Task, faulty: bool) {
    && s'.hist.submitted == s.hist.submitted
    && (!faulty ==> s'.hist.lost == s.hist.lost)
    && OnlySlot(s, s', a, x)
    && Loose(s, x) + Slot(s, a, x) <= Loose(s', x) + Slot(s', a, x)
    && (!faulty ==> Loose(s, x) + Slot(s, a, x) == Loose(s', x) + Slot(s', a, x))
  }

  /** Nothing submitted is unaccounted for; with a failure-free store nothing is counted twice. */
  ghost predicate Accounted(s: State, x: Task, faulty: bool) {
    && s.hist.submitted[x] <= Tracked(s, x)
    && (!faulty ==> s.hist.submitted[x] == Tracked(s, x) && s.hist.lost[x] == 0)
  }

  /** Slots other than `a` hold the same number of copies before and after. */
  lemma OtherHolders(s: State, s': State, a: AgentId, x: Task)
    requires OnlySlot(s, s', a, x)
    ensures |Holders(s', x)| - Slot(s', a, x) == |Holders(s, x)| - Slot(s, a, x)
  {
    HoldersSplit(s, a, x);
    HoldersSplit(s', a, x);
    forall b ensures b in Holders(s', x) - {a} <==> b in Holders(s, x) - {a} {
      assert b != a ==> Holding(s'.sh, s'.assign, b, x) == Holding(s.sh, s.assign, b, x);
    }
    assert Holders(s', x) - {a} == Holders(s, x) - {a};
  }

  lemma ConservesAccounted(s: State, s': State, a: AgentId, x: Task, faulty: bool)
    requires Conserves(s, s', a, x, faulty) && Accounted(s, x, faulty)
    ensures Accounted(s', x, faulty)
  {
    OtherHolders(s, s', a, x);
  }

  // ---------------------------------------------------------------- the assignment loop

  lemma RequeueConserves(s: State, s': State, t: Task, x: Task, faulty: bool)
    requires Requeue(s, s', t, faulty)
    ensures Loose(s', x) == Loose(s, x) + One(t == x)
    ensures s'.sh.agents == s.sh.agents && s'.assign == s.assign && s'.beat == s.beat
    ensures s'.hist.submitted == s.hist.submitted && (!faulty ==> s'.hist.lost == s.hist.lost)
  {
  }

  lemma DequeueConserves(s: State, s': State, x: Task, faulty: bool)
    requires s.assign.Ready? && AssignStep(s, s', faulty)
    ensures Conserves(s, s', "", x, faulty)
  {
    var q := s.sh.queue;
    assert q == [q[0]] + q[1..];
  }

  /** The steps around the mutex: they leave every record and the queue alone. */
  predicate Approaching(b: BindPc) {
    b.Mutex? || b.Lock? || b.Read? || b.UnlockFailed?
  }

  lemma ApproachingConserves(s: State, s': State, x: Task, faulty: bool)
    requires s.assign.Binding? && Approaching(s.assign.bind)
    requires BindStep(s, s', s.assign.task, s.assign.agent, s.assign.bind, faulty)
    ensures Conserves(s, s', s.assign.agent, x, faulty)
  {
  }

  /** The transition changes the state of a record, and not yet what counts as held. */
  lemma TransitionConserves(s: State, s': State, x: Task, faulty: bool)
    requires AssignLocal(s) && s.assign.Binding? && s.assign.bind.Cas?
    requires BindStep(s, s', s.assign.task, s.assign.agent, s.assign.bind, faulty)
    ensures Conserves(s, s', s.assign.agent, x, faulty)
  {
  }

  /** The write of the binding: the slot of the agent is filled as the hand is emptied. */
  lemma BindingConserves(s: State, s': State, x: Task, faulty: bool)
    requires AssignLocal(s) && x.id != "" && s.assign.Binding?
    requires s.assign.bind.GetFields? || s.assign.bind.SetFields?
    requires BindStep(s, s', s.assign.task, s.assign.agent, s.assign.bind, faulty)
    ensures Conserves(s, s', s.assign.agent, x, faulty)
  {
  }

  lemma BindConserves(s: State, s': State, x: Task, faulty: bool)
    requires AssignLocal(s) && x.id != "" && s.assign.Binding?
    requires BindStep(s, s', s.assign.task, s.assign.agent, s.assign.bind, faulty)
    ensures Conserves(s, s', s.assign.agent, x, faulty)
  {
    if Approaching(s.assign.bind) {
      ApproachingConserves(s, s', x, faulty);
    } else if s.assign.bind.RequeueLocked? {
      RequeueConserves(s.(assign := Unlocking(s.assign.agent)), s', s.assign.task, x, faulty);
    } else if s.assign.bind.Cas? {
      TransitionConserves(s, s', x, faulty);
    } else {
      BindingConserves(s, s', x, faulty);
    }
  }

  lemma AssignConserves(s: State, s': State, x: Task, faulty: bool)
    requires AssignLocal(s) && x.id != "" && AssignStep(s, s', faulty)
    ensures exists a :: Conserves(s, s', a, x, faulty)
  {
    match s.assign
    case Ready =>
      DequeueConserves(s, s', x, faulty);
    case Finding(t, f) =>
      assert Conserves(s, s', "", x, faulty);
    case Binding(t, a, b) =>
      BindConserves(s, s', x, faulty);
    case Unlocking(a) =>
      assert Conserves(s, s', "", x, faulty);
    case Requeueing(t) =>
      RequeueConserves(s.(assign := Ready), s', t, x, faulty);
      assert Conserves(s, s', "", x, faulty);
  }

  // ---------------------------------------------------------------- the heartbeat loop

  lemma DecidingConserves(s: State, s': State, x: Task, faulty: bool)
    requires s.beat.Crashing? && Deciding(s.beat.crash) && CrashStep(s, s', s.beat, faulty)
    ensures Conserves(s, s', s.beat.agent, x, faulty)
  {
  }

  lemma ActingConserves(s: State, s': State, x: Task, faulty: bool)
    requires AssignLocal(s) && BeatLocal(s) && s.beat.Crashing?
    requires !Deciding(s.beat.crash) && !s.beat.crash.BEnqueue?
    requires CrashStep(s, s', s.beat, faulty)
    ensures Conserves(s, s', s.beat.agent, x, faulty)
  {
  }

  lemma ReenqueueConserves(s: State, s': State, x: Task, faulty: bool)
    requires s.beat.Crashing? && s.beat.crash.BEnqueue? && CrashStep(s, s', s.beat, faulty)
    ensures Conserves(s, s', s.beat.agent, x, faulty)
  {
    if s.beat.crash.pre.task != "" {
      var pre := s.beat.crash.pre;
      RequeueConserves(AtCrash(s, s.beat, BPolicy), s', Task(pre.task, pre.priority), x, faulty);
    }
  }

  lemma BeatConserves(s: State, s': State, x: Task, faulty: bool)
    requires AssignLocal(s) && BeatLocal(s) && BeatStep(s, s', faulty)
    ensures exists a :: Conserves(s, s', a, x, faulty)
  {
    if !s.beat.Crashing? {
      assert Conserves(s, s', "", x, faulty);
    } else if Deciding(s.beat.crash) {
      DecidingConserves(s, s', x, faulty);
    } else if s.beat.crash.BEnqueue? {
      ReenqueueConserves(s, s', x, faulty);
    } else {
      ActingConserves(s, s', x, faulty);
    }
  }

  // ---------------------------------------------------------------- the RPCs

  lemma RegisterConserves(s: State, s': State, tid: nat, x: Task, faulty: bool)
    requires tid in s.calls && CallLocal(s, tid) && s.calls[tid].Register?
    requires RegisterStep(s, s', tid, s.calls[tid], faulty)
    ensures Conserves(s, s', s.calls[tid].agent, x, faulty)
  {
  }

  lemma HeartbeatConserves(s: State, s': State, tid: nat, x: Task, faulty: bool)
    requires tid in s.calls && CallLocal(s, tid) && s.calls[tid].Heartbeat?
    requires HeartbeatStep(s, s', tid, s.calls[tid], faulty)
    ensures Conserves(s, s', s.calls[tid].agent, x, faulty)
  {
  }

  /** A transition of StartWork or ReportOutput leaves a busy agent busy, and its task alone. */
  lemma WorkSwapConserves(s: State, s': State, tid: nat, x: Task, faulty: bool)
    requires tid in s.calls && CallLocal(s, tid) && s.calls[tid].Work? && s.calls[tid].work.WCas?
    requires WorkStep(s, s', tid, s.calls[tid], faulty)
    ensures Conserves(s, s', s.calls[tid].agent, x, faulty)
  {
  }

  lemma WorkConserves(s: State, s': State, tid: nat, x: Task, faulty: bool)
    requires tid in s.calls && CallLocal(s, tid) && s.calls[tid].Work?
    requires WorkStep(s, s', tid, s.calls[tid], faulty)
    ensures Conserves(s, s', s.calls[tid].agent, x, faulty)
  {
    if s.calls[tid].work.WCas? {
      WorkSwapConserves(s, s', tid, x, faulty);
    }
  }

  /** The delivery moves the task from the agent's slot to the delivered ones. */
  lemma DeliveryConserves(s: State, s': State, tid: nat, x: Task, faulty: bool)
    requires AssignLocal(s) && tid in s.calls && CallLocal(s, tid) && s.calls[tid].Done? && s.calls[tid].done.DCas?
    requires DoneStep(s, s', tid, s.calls[tid], faulty)
    ensures Conserves(s, s', s.calls[tid].agent, x, faulty)
  {
  }

  lemma DoneConserves(s: State, s': State, tid: nat, x: Task, faulty: bool)
    requires AssignLocal(s) && tid in s.calls && CallLocal(s, tid) && s.calls[tid].Done?
    requires DoneStep(s, s', tid, s.calls[tid], faulty)
    ensures Conserves(s, s', s.calls[tid].agent, x, faulty)
  {
    if s.calls[tid].done.DCas? {
      DeliveryConserves(s, s', tid, x, faulty);
    }
  }

  lemma CallConserves(s: State, s': State, tid: nat, x: Task, faulty: bool)
    requires AssignLocal(s) && tid in s.calls && CallLocal(s, tid) && CallStep(s, s', tid, faulty)
    ensures Conserves(s, s', s.calls[tid].agent, x, faulty)
  {
    match s.calls[tid]
    case Register(_, _) => RegisterConserves(s, s', tid, x, faulty);
    case Heartbeat(_, _) => HeartbeatConserves(s, s', tid, x, faulty);
    case Work(_, _, _) => WorkConserves(s, s', tid, x, faulty);
    case Done(_, _, _) => DoneConserves(s, s', tid, x, faulty);
  }

  // ---------------------------------------------------------------- every step, every run

  lemma StepAccounted(s: State, s': State, who: Actor, x: Task, faulty: bool)
    requires Inv(s) && Accounted(s, x, faulty) && x.id != "" && Step(s, s', who, faulty)
    ensures Accounted(s', x, faulty)
  {
    if who.Assigner? {
      AssignConserves(s, s', x, faulty);
      var a :| Conserves(s, s', a, x, faulty);
      ConservesAccounted(s, s', a, x, faulty);
    } else if who.Beater? {
      BeatConserves(s, s', x, faulty);
      var a :| Conserves(s, s', a, x, faulty);
      ConservesAccounted(s, s', a, x, faulty);
    } else if who.Caller? {
      assert CallLocal(s, who.tid);
      CallConserves(s, s', who.tid, x, faulty);
      ConservesAccounted(s, s', s.calls[who.tid].agent, x, faulty);
    } else {
      assert Holders(s', x) == Holders(s, x);
    }
  }

  lemma InitAccounted(s: State, x: Task, faulty: bool)
    requires Init(s)
    ensures Accounted(s, x, faulty)
  {
    assert Holders(s, x) == {};
  }

  lemma {:induction false} RunAccounted(states: seq<State>, actors: seq<Actor>, x: Task, faulty: bool, n: nat)
    requires Run(states, actors, faulty) && n < |states| && x.id != ""
    ensures Accounted(states[n], x, faulty)
  {
    if n == 0 {
      InitAccounted(states[0], x, faulty);
    } else {
      RunAccounted(states, actors, x, faulty, n - 1);
      RunKeepsInv(states, actors, faulty, n - 1);
      StepAccounted(states[n - 1], states[n], actors[n - 1], x, faulty);
    }
  }

  // ---------------------------------------------------------------- the theorems

  /**
   Every copy of the task ever submitted is in exactly one place: queued, in the hand of
   a running step, held by a non-idle agent, or delivered.
   */
  ghost predicate Conserved(s: State, x: Task) {
    s.hist.submitted[x] == multiset(s.sh.queue)[x] + AssignHand(s.assign, x) + BeatHand(s.beat, x)
                           + |Holders(s, x)| + s.hist.delivered[x]
  }

  /**
   With a failure-free store no task with a non-empty id is lost or duplicated, whatever
   ids the other tasks carry.
   */
  lemma TaskConservation(states: seq<State>, actors: seq<Actor>, n: nat)
    requires Run(states, actors, false) && n < |states|
    ensures forall x: Task :: x.id != "" ==> Conserved(states[n], x)
  {
    forall x: Task | x.id != "" ensures Conserved(states[n], x) {
      RunAccounted(states, actors, x, false, n);
    }
  }

  /** Clients never reuse a task id. */
  ghost predicate DistinctIds(submitted: multiset<Task>) {
    && (forall x :: submitted[x] <= 1)
    && (forall x: Task, y: Task :: x in submitted && y in submitted && x.id == y.id ==> x == y)
  }

  /** With distinct ids a held task has one owner, is not queued and was not delivered. */
  lemma ExclusiveOwnership(states: seq<State>, actors: seq<Actor>, n: nat, a: AgentId, x: Task)
    requires Run(states, actors, false) && n < |states|
    requires DistinctIds(states[n].hist.submitted)
    requires a in Holders(states[n], x)
    ensures forall y: Task :: y.id == x.id ==> y !in states[n].sh.queue && y !in states[n].hist.delivered
    ensures forall b, y: Task :: y.id == x.id && b in Holders(states[n], y) ==> a == b
  {
    var s := states[n];
    TaskConservation(states, actors, n);
    assert s.hist.submitted[x] >= |Holders(s, x)|;
    forall y: Task | y.id == x.id && Tracked(s, y) > 0
      ensures y == x && |Holders(s, x)| == 1 && y !in s.sh.queue && y !in s.hist.delivered
    {
      RunAccounted(states, actors, y, false, n);
      HoldersSplit(s, a, x);
      assert y in s.hist.submitted && x in s.hist.submitted;
      assert multiset(s.sh.queue)[x] == 0;
    }
    forall b, y: Task | y.id == x.id && b in Holders(s, y) ensures a == b {
      HoldersSplit(s, b, y);
      HoldersSplit(s, a, x);
      assert b != a && b in Holders(s, x) ==> b in Holders(s, x) - {a};
    }
    forall y: Task | y.id == x.id ensures y !in s.sh.queue && y !in s.hist.delivered {
      assert y in s.sh.queue ==> y in multiset(s.sh.queue);
      assert y in multiset(s.sh.queue) || y in s.hist.delivered ==> Tracked(s, y) > 0;
    }
  }

  /**
   However store calls fail, a submitted task is still queued, in hand, held by a
   non-idle agent, was bound to an agent when that agent delivered its output, or
   an EnqueueTask call that carried it returned an error.
   */
  lemma AtLeastOnce(states: seq<State>, actors: seq<Actor>, n: nat, x: Task)
    requires Run(states, actors, true) && n < |states| && x in states[n].hist.submitted && x.id != ""
    ensures || x in states[n].sh.queue
            || (HasTask(states[n].assign) && states[n].assign.task == x)
            || BeatHand(states[n].beat, x) == 1
            || (exists a :: Holding(states[n].sh, states[n].assign, a, x))
            || x in states[n].hist.delivered
            || x in states[n].hist.lost
  {
    var s := states[n];
    RunAccounted(states, actors, x, true, n);
    if |Holders(s, x)| > 0 {
      var a :| a in Holders(s, x);
    } else if multiset(s.sh.queue)[x] > 0 {
      assert x in multiset(s.sh.queue);
    }
  }
}
