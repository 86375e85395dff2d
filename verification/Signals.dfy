/**
 Completion signals name the right task.  With a failure-free store and no empty
 id among the submitted tasks, the id that completeAgent hands to the completion
 registry is the id tryAssignTask bound to the agent, whatever task_id the RPC
 carried; and every delivered task is signalled or about to be.
 */
module CompletionSignals {
  import opened Types
  import opened Agent
  import opened SupervisorSystem
  import opened SupervisorInvariant
  import opened Conservation

  // ---------------------------------------------------------------- non-empty ids

  /** No task with an empty id was submitted so far. */
  ghost predicate AllNamed(submitted: multiset<Task>) {
    forall x: Task :: x in submitted ==> x.id != ""
  }

  ghost predicate NamedQueue(q: seq<Task>) {
    forall t :: t in q ==> t.id != ""
  }

  /** No task with an empty id is queued or in hand. */
  ghost predicate Named(s: State) {
    NamedQueue(s.sh.queue) && (HasTask(s.assign) ==> s.assign.task.id != "")
  }

  lemma EnqueuedMembers(q: seq<Task>, t: Task, q': seq<Task>)
    requires Enqueued(q, t, q')
    ensures forall x :: x in q' <==> x in q || x == t
  {
    forall x ensures x in q' <==> x in q || x == t {
      assert x in q' <==> x in multiset(q');
      assert x in q <==> x in multiset(q);
    }
  }

  lemma EnqueuedNamed(q: seq<Task>, t: Task, q': seq<Task>)
    requires NamedQueue(q) && t.id != "" && Enqueued(q, t, q')
    ensures NamedQueue(q')
  {
    EnqueuedMembers(q, t, q');
  }

  /** The task is still in hand with the queue as it was, or it went back to the queue or got lost or bound. */
  ghost predicate HandKept(s: State, s': State) {
    if s'.sh.queue == s.sh.queue then HasTask(s'.assign) ==> HasTask(s.assign) && s'.assign.task == s.assign.task
    else HasTask(s.assign) && Enqueued(s.sh.queue, s.assign.task, s'.sh.queue) && !HasTask(s'.assign)
  }

  lemma FindHand(s: State, s': State, faulty: bool)
    requires s.assign.Finding? && AssignStep(s, s', faulty)
    ensures HandKept(s, s')
  {
  }

  lemma BindHand(s: State, s': State, faulty: bool)
    requires s.assign.Binding? && BindStep(s, s', s.assign.task, s.assign.agent, s.assign.bind, faulty)
    ensures HandKept(s, s')
  {
  }

  lemma AssignHandKept(s: State, s': State, faulty: bool)
    requires !s.assign.Ready? && AssignStep(s, s', faulty)
    ensures HandKept(s, s')
  {
    match s.assign
    case Finding(_, _) => FindHand(s, s', faulty);
    case Binding(_, _, _) => BindHand(s, s', faulty);
    case _ =>
  }

  lemma AssignNamed(s: State, s': State, faulty: bool)
    requires Named(s) && AssignStep(s, s', faulty)
    ensures Named(s')
  {
    if s.assign.Ready? {
      assert s.sh.queue[0] in s.sh.queue;
    } else {
      AssignHandKept(s, s', faulty);
      if s'.sh.queue != s.sh.queue {
        EnqueuedNamed(s.sh.queue, s.assign.task, s'.sh.queue);
      }
    }
  }

  lemma BeatNamed(s: State, s': State, faulty: bool)
    requires Named(s) && BeatStep(s, s', faulty)
    ensures Named(s')
  {
    if s.beat.Crashing? && s.beat.crash.BEnqueue? && s.beat.crash.pre.task != "" && s'.sh.queue != s.sh.queue {
      var pre := s.beat.crash.pre;
      EnqueuedNamed(s.sh.queue, Task(pre.task, pre.priority), s'.sh.queue);
    }
  }

  lemma StepNamed(s: State, s': State, who: Actor, faulty: bool)
    requires Inv(s) && Named(s) && Step(s, s', who, faulty) && AllNamed(s'.hist.submitted)
    ensures Named(s')
  {
    match who
    case Assigner => AssignNamed(s, s', faulty);
    case Beater => BeatNamed(s, s', faulty);
    case Submitter(t) =>
      EnqueuedMembers(s.sh.queue, t, s'.sh.queue);
      assert t in s'.hist.submitted;
    case Caller(tid) =>
      assert CallLocal(s, tid);
      CallGuarantee(s, s', tid, faulty);
    case _ =>
  }

  /** The assignment loop neither submits nor signals. */
  lemma AssignQuiet(s: State, s': State, faulty: bool)
    requires AssignStep(s, s', faulty)
    ensures s'.hist.submitted == s.hist.submitted && s'.hist.signalled == s.hist.signalled
  {
    if s.assign.Binding? {
      assert BindStep(s, s', s.assign.task, s.assign.agent, s.assign.bind, faulty);
    }
  }

  /** Nothing submitted is ever forgotten. */
  lemma SubmittedGrows(s: State, s': State, who: Actor, faulty: bool)
    requires Step(s, s', who, faulty)
    ensures s.hist.submitted <= s'.hist.submitted
  {
    match who
    case Assigner => AssignQuiet(s, s', faulty);
    case _ =>
  }

  lemma StillNamed(s: State, s': State, who: Actor, faulty: bool)
    requires Step(s, s', who, faulty) && AllNamed(s'.hist.submitted)
    ensures AllNamed(s.hist.submitted)
  {
    SubmittedGrows(s, s', who, faulty);
    forall x: Task | x in s.hist.submitted ensures x.id != "" {
      assert x in s'.hist.submitted;
    }
  }

  // ---------------------------------------------------------------- the invariant

  /** A non-idle agent always has a binding once the assignment is over. */
  ghost predicate AllBound(s: State) {
    forall a :: a in s.sh.agents && Busy(s.sh.agents[a].state) && !Unbound(s.assign, a) ==> s.sh.agents[a].task != ""
  }

  /** The call delivered `x` and has not signalled it yet. */
  predicate Pending(c: Call, x: Task) {
    c.Done? && (c.done.DFields? || c.done.DSignal?) && c.done.done == x
  }

  /** completeAgent past its transition is about to signal the task it delivered. */
  predicate SignalsOwn(s: State, c: Call) {
    c.Done? ==>
      && (c.done.DFields? || c.done.DSignal? ==> c.done.done.id != "" && c.done.done in s.hist.delivered)
      && (c.done.DSignal? ==> c.done.signal == c.done.done.id)
  }

  /** Every signalled id belongs to a delivered task. */
  ghost predicate SignalledDelivered(s: State) {
    forall i :: i in s.hist.signalled ==> i != "" && exists x :: x in s.hist.delivered && x.id == i
  }

  /** Every delivered task was signalled, or a call is on its way to do so. */
  ghost predicate DeliveredSignalled(s: State) {
    forall x :: x in s.hist.delivered ==>
                  x.id in s.hist.signalled || exists tid :: tid in s.calls && Pending(s.calls[tid], x)
  }

  ghost predicate SignalInv(s: State) {
    && AllBound(s)
    && (forall tid :: tid in s.calls ==> SignalsOwn(s, s.calls[tid]))
    && SignalledDelivered(s)
    && DeliveredSignalled(s)
  }

  // ---------------------------------------------------------------- bindings

  lemma AssignBound(s: State, s': State)
    requires AllBound(s) && AssignLocal(s) && Named(s) && AssignStep(s, s', false)
    ensures AllBound(s') && s'.hist.delivered == s.hist.delivered && s'.hist.signalled == s.hist.signalled
  {
    if s.assign.Binding? {
      assert BindStep(s, s', s.assign.task, s.assign.agent, s.assign.bind, false);
    }
  }

  lemma CrashBound(s: State, s': State)
    requires AllBound(s) && s.beat.Crashing? && CrashStep(s, s', s.beat, false)
    ensures AllBound(s') && s'.hist == s.hist && s'.calls == s.calls
  {
  }

  lemma BeatBound(s: State, s': State)
    requires AllBound(s) && BeatStep(s, s', false)
    ensures AllBound(s') && s'.hist == s.hist && s'.calls == s.calls
  {
    if s.beat.Crashing? {
      CrashBound(s, s');
    }
  }

  lemma CallBound(s: State, s': State, tid: nat)
    requires AllBound(s) && AssignLocal(s) && tid in s.calls && CallLocal(s, tid) && CallStep(s, s', tid, false)
    ensures AllBound(s')
  {
    if s.calls[tid].Done? {
      assert DoneStep(s, s', tid, s.calls[tid], false);
    }
  }

  // ---------------------------------------------------------------- signals

  lemma OtherCallSignals(s: State, s': State, tid: nat)
    requires tid in s.calls && !s.calls[tid].Done? && CallStep(s, s', tid, false)
    ensures s'.hist == s.hist
    ensures tid in s'.calls ==> !s'.calls[tid].Done?
  {
  }

  /** What a step of completeAgent does to deliveries and signals. */
  ghost predicate Answers(s: State, s': State, tid: nat)
    requires tid in s.calls
  {
    && s.hist.delivered <= s'.hist.delivered && s.hist.signalled <= s'.hist.signalled
    && (tid in s'.calls ==> SignalsOwn(s', s'.calls[tid]))
    && (forall i :: i in s'.hist.signalled ==>
          i in s.hist.signalled || (i != "" && exists x :: x in s.hist.delivered && x.id == i))
    && (forall x :: x in s'.hist.delivered ==>
          x in s.hist.delivered || (tid in s'.calls && Pending(s'.calls[tid], x)))
    && (forall x :: Pending(s.calls[tid], x) ==>
          x.id in s'.hist.signalled || (tid in s'.calls && Pending(s'.calls[tid], x)))
  }

  /** The transition delivers the task. */
  lemma DeliveryAnswers(s: State, s': State, tid: nat)
    requires AllBound(s) && AssignLocal(s)
    requires tid in s.calls && CallLocal(s, tid) && s.calls[tid].Done? && s.calls[tid].done.DCas?
    requires DoneStep(s, s', tid, s.calls[tid], false)
    ensures Answers(s, s', tid)
  {
  }

  lemma SignalAnswers(s: State, s': State, tid: nat)
    requires tid in s.calls && s.calls[tid].Done? && s.calls[tid].done.DSignal? && SignalsOwn(s, s.calls[tid])
    requires DoneStep(s, s', tid, s.calls[tid], false)
    ensures Answers(s, s', tid)
  {
  }

  lemma DoneSignals(s: State, s': State, tid: nat)
    requires AllBound(s) && AssignLocal(s)
    requires tid in s.calls && CallLocal(s, tid) && s.calls[tid].Done? && SignalsOwn(s, s.calls[tid])
    requires DoneStep(s, s', tid, s.calls[tid], false)
    ensures Answers(s, s', tid)
  {
    match s.calls[tid].done
    case DCas(_) => DeliveryAnswers(s, s', tid);
    case DSignal(_, _) => SignalAnswers(s, s', tid);
    case _ =>
  }

  lemma CallKeepsSignals(s: State, s': State, tid: nat)
    requires Inv(s) && SignalInv(s) && tid in s.calls && CallStep(s, s', tid, false)
    ensures SignalInv(s')
  {
    assert CallLocal(s, tid) && SignalsOwn(s, s.calls[tid]);
    CallBound(s, s', tid);
    CallGuarantee(s, s', tid, false);
    if s.calls[tid].Done? {
      DoneSignals(s, s', tid);
    } else {
      OtherCallSignals(s, s', tid);
    }
    forall x | x in s'.hist.delivered
      ensures x.id in s'.hist.signalled || exists i :: i in s'.calls && Pending(s'.calls[i], x)
    {
      if x in s.hist.delivered && x.id !in s.hist.signalled {
        var i :| i in s.calls && Pending(s.calls[i], x);
        if i != tid {
          assert i in s'.calls && Pending(s'.calls[i], x);
        }
      }
    }
    forall i | i in s'.calls ensures SignalsOwn(s', s'.calls[i]) {
      if i != tid {
        assert SignalsOwn(s, s.calls[i]);
      }
    }
  }

  lemma FrameSignals(s: State, s': State)
    requires SignalInv(s) && AllBound(s')
    requires s'.hist.delivered == s.hist.delivered && s'.hist.signalled == s.hist.signalled
    requires forall i :: i in s.calls ==> i in s'.calls && s'.calls[i] == s.calls[i]
    requires forall i :: i in s'.calls && i !in s.calls && s'.calls[i].Done? ==> s'.calls[i].done.DMutex?
    ensures SignalInv(s')
  {
    forall x | x in s'.hist.delivered
      ensures x.id in s'.hist.signalled || exists i :: i in s'.calls && Pending(s'.calls[i], x)
    {
      if x.id !in s.hist.signalled {
        var i :| i in s.calls && Pending(s.calls[i], x);
        assert i in s'.calls && Pending(s'.calls[i], x);
      }
    }
    forall i | i in s'.calls ensures SignalsOwn(s', s'.calls[i]) {
      assert i in s.calls ==> SignalsOwn(s, s.calls[i]);
    }
  }

  lemma StepKeepsSignals(s: State, s': State, who: Actor)
    requires Inv(s) && Named(s) && SignalInv(s) && Step(s, s', who, false)
    ensures SignalInv(s')
  {
    match who
    case Assigner =>
      AssignBound(s, s');
      AssignGuarantee(s, s', false);
      FrameSignals(s, s');
    case Beater =>
      BeatBound(s, s');
      FrameSignals(s, s');
    case Caller(tid) => CallKeepsSignals(s, s', tid);
    case Submitter(_) => FrameSignals(s, s');
    case Arriver(_, _) => FrameSignals(s, s');
    case Ticker => FrameSignals(s, s');
  }

  lemma {:induction false} RunSignals(states: seq<State>, actors: seq<Actor>, n: nat)
    requires Run(states, actors, false) && n < |states| && AllNamed(states[n].hist.submitted)
    ensures SignalInv(states[n]) && Named(states[n])
  {
    if n > 0 {
      var s, s', who := states[n - 1], states[n], actors[n - 1];
      StillNamed(s, s', who, false);
      RunSignals(states, actors, n - 1);
      RunKeepsInv(states, actors, false, n - 1);
      StepKeepsSignals(s, s', who);
      StepNamed(s, s', who, false);
    }
  }

  /** Every signalled id is that of a task an agent had bound when it delivered. */
  ghost predicate SignalsExact(s: State) {
    forall i :: i in s.hist.signalled ==> exists x :: x in s.hist.delivered && x in s.hist.submitted && x.id == i
  }

  /**
   A signalled id is the id of a task that an agent had bound when it delivered and
   that a client had submitted; the id the RPC claimed plays no part.  Conversely no
   delivery goes unsignalled once its call has returned.
   */
  lemma SignalsAreDeliveries(states: seq<State>, actors: seq<Actor>, n: nat)
    requires Run(states, actors, false) && n < |states| && AllNamed(states[n].hist.submitted)
    ensures SignalsExact(states[n])
    ensures states[n].calls == map[] ==> forall x :: x in states[n].hist.delivered ==> x.id in states[n].hist.signalled
  {
    RunSignals(states, actors, n);
    TaskConservation(states, actors, n);
    var h := states[n].hist;
    forall i | i in h.signalled ensures exists x :: x in h.delivered && x in h.submitted && x.id == i {
      var x :| x in h.delivered && x.id == i;
      assert h.submitted[x] >= h.delivered[x];
      assert x in h.submitted;
    }
  }
}
