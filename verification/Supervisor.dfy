/**
 The supervisor as a step system.  Every store call and every critical section
 is one atomic step; what a go routine keeps in local variables between two
 steps is in its program counter.  One assignment loop, one heartbeat loop and
 any number of agent RPCs interleave freely.
 */
module SupervisorSystem {
  import opened Types
  import opened Agent

  /** How long crashAgent's cooldown sentinel lasts: 24 hours. */
  const SENTINEL: Time := 24 * 3600 * 1_000_000_000

  /** One agent's record in the store; an empty task id means "no task". */
  datatype Fields = Fields(state: AgentState, lastHeartbeat: int, task: TaskId, priority: real, registeredAt: int)

  /** What RestartPolicy.RecordCrash answered. */
  datatype Decision = Decision(shouldRestart: bool, backoff: Time)

  /** The exclusion the restart policy last recorded for an agent. */
  datatype Ban = Until(expiry: Time) | Forever

  /** Who holds a per-agent mutex. */
  datatype Owner = AssignLoop | HeartbeatLoop | Rpc(tid: nat)

  /** Copies of the cooldown and circuit maps, and the clock, as findIdleAgent took them. */
  datatype Snapshot = Snapshot(cool: map<AgentId, Time>, circuit: set<AgentId>, now: Time)

  /** findIdleAgent, each constructor named after the step that comes next. */
  datatype FindPc =
    | List
    | Copy(todo: seq<AgentId>)
    | ReadClock(todo: seq<AgentId>, cool: map<AgentId, Time>, circuit: set<AgentId>)
    | Scan(todo: seq<AgentId>, snap: Snapshot)
    | Recheck(candidate: AgentId, todo: seq<AgentId>, snap: Snapshot)

  /** tryAssignTask from getAgentMutex on. */
  datatype BindPc =
    | Mutex
    | Lock
    | Read
    | Cas(seen: AgentState)
    | GetFields
    | SetFields(cur: Fields)
    | RequeueLocked
    | UnlockFailed

  /** tryAssignTask: `task` is the dequeued task in its hand. */
  datatype AssignPc =
    | Ready
    | Finding(task: Task, find: FindPc)
    | Binding(task: Task, agent: AgentId, bind: BindPc)
    | Unlocking(agent: AgentId)
    | Requeueing(task: Task)

  /** crashAgent. */
  datatype CrashPc =
    | BMutex
    | BLock
    | BPreRead
    | BSentinel(pre: Fields)
    | BRead(pre: Fields)
    | BCas(pre: Fields, seen: AgentState)
    | BAbort
    | BEnqueue(pre: Fields)
    | BPolicy
    | BRecord(decision: Decision)
    | BUnlock

  /** checkHeartbeats: the agents still to look at, and the crash under way. */
  datatype BeatPc =
    | Waiting
    | Checking(todo: seq<AgentId>, now: Time)
    | Crashing(agent: AgentId, crash: CrashPc, todo: seq<AgentId>, now: Time)

  datatype RegisterPc = RStore | RMutex

  datatype HeartbeatPc = HMutex | HLock | HRead | HWrite(cur: Fields) | HUnlock

  /** StartWork and ReportOutput; `locked` is false on the path they take without a mutex. */
  datatype WorkPc = WMutex | WLock | WRead(locked: bool) | WCas(locked: bool, seen: AgentState) | WUnlock

  /** completeAgent; `done` is the task that was bound when the agent delivered. */
  datatype DonePc =
    | DMutex
    | DLock
    | DRead
    | DCas(seen: AgentState)
    | DFields(done: Task)
    | DSignal(done: Task, signal: TaskId)
    | DClear
    | DReset
    | DUnlock

  datatype Call =
    | Register(agent: AgentId, register: RegisterPc)
    | Heartbeat(agent: AgentId, beat: HeartbeatPc)
    | Work(agent: AgentId, event: AgentEvent, work: WorkPc)
    | Done(agent: AgentId, claimed: TaskId, done: DonePc)

  /**
   What the threads share: the store's agents and queue, the per-agent mutexes,
   the cooldown and circuit maps, and the clock.  `issued` (the ids ever drawn)
   and `bans` (the exclusions ever recorded) are history.
   */
  datatype Shared = Shared(
    agents: map<AgentId, Fields>,
    queue: seq<Task>,
    mutexes: set<AgentId>,
    holder: map<AgentId, Owner>,
    cooldown: map<AgentId, Time>,
    circuit: set<AgentId>,
    now: Time,
    staleMillis: int,
    issued: set<AgentId>,
    bans: map<AgentId, Ban>)

  /** What happened to the tasks so far; no step reads it. */
  datatype History = History(
    submitted: multiset<Task>,
    delivered: multiset<Task>,
    lost: multiset<Task>,
    signalled: multiset<TaskId>)

  datatype State = State(sh: Shared, assign: AssignPc, beat: BeatPc, calls: map<nat, Call>, hist: History)

  // ---------------------------------------------------------------- the store

  ghost predicate ByPriority(q: seq<Task>) {
    forall i, j :: 0 <= i < j < |q| ==> q[i].priority <= q[j].priority
  }

  /** EnqueueTask: the queue is re-sorted; the order of equal priorities is open. */
  ghost predicate Enqueued(q: seq<Task>, t: Task, q': seq<Task>) {
    multiset(q') == multiset(q) + multiset{t} && ByPriority(q')
  }

  /** A task behind all that do not come after it, and before the others, leaves the queue in order. */
  lemma Placed(q: seq<Task>, t: Task, i: nat)
    requires ByPriority(q) && i <= |q|
    requires forall j :: 0 <= j < i ==> q[j].priority <= t.priority
    requires i < |q| ==> t.priority <= q[i].priority
    ensures ByPriority(q[..i] + [t] + q[i..])
  {
  }

  /** ListAgents: the known ids, in no particular order. */
  ghost predicate Listing(ids: seq<AgentId>, agents: map<AgentId, Fields>) {
    forall a :: a in ids <==> a in agents
  }

  /** The task a record binds, if any. */
  function Bound(f: Fields): multiset<Task> {
    if f.task == "" then multiset{} else multiset{Task(f.task, f.priority)}
  }

  /** Whether GetAgentState followed by the transition check lets the event through. */
  predicate Accepts(h: Shared, a: AgentId, event: AgentEvent) {
    a in h.agents && NextState(h.agents[a].state, event).Some?
  }

  /** Whether CompareAndSetAgentState from `seen` succeeds. */
  predicate Still(h: Shared, a: AgentId, seen: AgentState) {
    a in h.agents && h.agents[a].state == seen
  }

  function Put(h: Shared, a: AgentId, f: Fields): Shared {
    h.(agents := h.agents[a := f])
  }

  function Move(h: Shared, a: AgentId, next: AgentState): Shared
    requires a in h.agents
  {
    Put(h, a, h.agents[a].(state := next))
  }

  // ---------------------------------------------------------------- mutexes and exclusion maps

  predicate Free(h: Shared, a: AgentId) {
    a !in h.holder
  }

  function Acquire(h: Shared, a: AgentId, o: Owner): Shared {
    h.(holder := h.holder[a := o])
  }

  function Release(h: Shared, a: AgentId): Shared {
    h.(holder := h.holder - {a})
  }

  predicate Cooling(cool: map<AgentId, Time>, a: AgentId, now: Time) {
    a in cool && now < cool[a]
  }

  /** crashAgent's sentinel. */
  function Guarded(h: Shared, a: AgentId): Shared {
    h.(cooldown := h.cooldown[a := h.now + SENTINEL])
  }

  function Uncooled(h: Shared, a: AgentId): Shared {
    h.(cooldown := h.cooldown - {a})
  }

  /** The last critical section of crashAgent: the decision enters the two maps. */
  function Recorded(h: Shared, a: AgentId, d: Decision): Shared {
    if !d.shouldRestart then
      h.(circuit := h.circuit + {a}, cooldown := h.cooldown - {a}, bans := h.bans[a := Forever])
    else if d.backoff > 0 then
      h.(cooldown := h.cooldown[a := h.now + d.backoff], bans := h.bans[a := Until(h.now + d.backoff)])
    else
      h.(cooldown := h.cooldown - {a}, bans := h.bans - {a})
  }

  /** The last critical section of completeAgent. */
  function Reset(h: Shared, a: AgentId): Shared {
    h.(cooldown := h.cooldown - {a}, circuit := h.circuit - {a})
  }

  // ---------------------------------------------------------------- the assignment loop

  /** The steps of findIdleAgent: they read the shared state and only move the program counter. */
  ghost predicate FindNext(h: Shared, t: Task, f: FindPc, p': AssignPc, faulty: bool) {
    match f
    case List =>
      || (faulty && p' == Requeueing(t))
      || (p'.Finding? && p'.find.Copy? && Listing(p'.find.todo, h.agents) && p' == Finding(t, Copy(p'.find.todo)))
    case Copy(todo) =>
      p' == Finding(t, ReadClock(todo, h.cooldown, h.circuit))
    case ReadClock(todo, cool, circuit) =>
      p' == Finding(t, Scan(todo, Snapshot(cool, circuit, h.now)))
    case Scan(todo, snap) =>
      if todo == [] then p' == Requeueing(t)
      else
        || (faulty && p' == Finding(t, Scan(todo[1..], snap)))
        || p' == Finding(t, if Still(h, todo[0], Idle) && todo[0] !in snap.circuit
                               && !Cooling(snap.cool, todo[0], snap.now)
                            then Recheck(todo[0], todo[1..], snap) else Scan(todo[1..], snap))
    case Recheck(a, todo, snap) =>
      p' == if a in h.circuit || Cooling(h.cooldown, a, snap.now)
            then Finding(t, Scan(todo, snap)) else Binding(t, a, Mutex)
  }

  function AtBind(s: State, t: Task, a: AgentId, b: BindPc): State {
    s.(assign := Binding(t, a, b))
  }

  /** EnqueueTask on behalf of the supervisor; a failed call loses the task. */
  ghost predicate Requeue(s: State, s': State, t: Task, faulty: bool) {
    || (faulty && s' == s.(hist := s.hist.(lost := s.hist.lost + multiset{t})))
    || (Enqueued(s.sh.queue, t, s'.sh.queue) && s' == s.(sh := s.sh.(queue := s'.sh.queue)))
  }

  ghost predicate BindStep(s: State, s': State, t: Task, a: AgentId, b: BindPc, faulty: bool) {
    match b
    case Mutex =>
      s' == if a in s.sh.mutexes then AtBind(s, t, a, Lock) else s.(assign := Requeueing(t))
    case Lock =>
      Free(s.sh, a) && s' == AtBind(s, t, a, Read).(sh := Acquire(s.sh, a, AssignLoop))
    case Read =>
      || (faulty && s' == AtBind(s, t, a, UnlockFailed))
      || s' == AtBind(s, t, a, if Accepts(s.sh, a, TaskAssigned) then Cas(s.sh.agents[a].state) else UnlockFailed)
    case Cas(seen) =>
      || (faulty && s' == AtBind(s, t, a, UnlockFailed))
      || s' == if Still(s.sh, a, seen) then AtBind(s, t, a, GetFields).(sh := Move(s.sh, a, Assigned))
               else AtBind(s, t, a, UnlockFailed)
    case GetFields =>
      || (faulty && s' == AtBind(s, t, a, RequeueLocked))
      || s' == AtBind(s, t, a, if a in s.sh.agents then SetFields(s.sh.agents[a]) else RequeueLocked)
    case SetFields(cur) =>
      || (faulty && s' == AtBind(s, t, a, RequeueLocked))
      || s' == s.(assign := Unlocking(a), sh := Put(s.sh, a, cur.(task := t.id, priority := t.priority)))
    case RequeueLocked =>
      Requeue(s.(assign := Unlocking(a)), s', t, faulty)
    case UnlockFailed =>
      s' == s.(assign := Requeueing(t), sh := Release(s.sh, a))
  }

  /** One step of tryAssignTask; `faulty` allows store calls to fail without effect. */
  ghost predicate AssignStep(s: State, s': State, faulty: bool) {
    match s.assign
    case Ready =>
      var q := s.sh.queue;
      q != [] && s' == s.(assign := Finding(q[0], List), sh := s.sh.(queue := q[1..]))
    case Finding(t, f) => s' == s.(assign := s'.assign) && FindNext(s.sh, t, f, s'.assign, faulty)
    case Binding(t, a, b) => BindStep(s, s', t, a, b, faulty)
    case Unlocking(a) => s' == s.(assign := Ready, sh := Release(s.sh, a))
    case Requeueing(t) => Requeue(s.(assign := Ready), s', t, faulty)
  }

  // ---------------------------------------------------------------- the heartbeat loop

  function AtCrash(s: State, p: BeatPc, c: CrashPc): State
    requires p.Crashing?
  {
    s.(beat := p.(crash := c))
  }

  ghost predicate CrashStep(s: State, s': State, p: BeatPc, faulty: bool)
    requires p.Crashing?
  {
    var a := p.agent;
    match p.crash
    case BMutex =>
      s' == if a in s.sh.mutexes then AtCrash(s, p, BLock) else s.(beat := Checking(p.todo, p.now))
    case BLock =>
      Free(s.sh, a) && s' == AtCrash(s, p, BPreRead).(sh := Acquire(s.sh, a, HeartbeatLoop))
    case BPreRead =>
      || (faulty && s' == AtCrash(s, p, BUnlock))
      || s' == AtCrash(s, p, if a in s.sh.agents then BSentinel(s.sh.agents[a]) else BUnlock)
    case BSentinel(pre) =>
      s' == AtCrash(s, p, BRead(pre)).(sh := Guarded(s.sh, a))
    case BRead(pre) =>
      || (faulty && s' == AtCrash(s, p, BAbort))
      || s' == AtCrash(s, p, if Accepts(s.sh, a, AgentFailed) then BCas(pre, s.sh.agents[a].state) else BAbort)
    case BCas(pre, seen) =>
      || (faulty && s' == AtCrash(s, p, BAbort))
      || s' == if Still(s.sh, a, seen)
               then AtCrash(s, p, if seen == Idle then BAbort else BEnqueue(pre)).(sh := Move(s.sh, a, Idle))
               else AtCrash(s, p, BAbort)
    case BAbort =>
      s' == AtCrash(s, p, BUnlock).(sh := Uncooled(s.sh, a))
    case BEnqueue(pre) =>
      if pre.task == "" then s' == AtCrash(s, p, BPolicy)
      else Requeue(AtCrash(s, p, BPolicy), s', Task(pre.task, pre.priority), faulty)
    case BPolicy =>
      s'.beat.Crashing? && s'.beat.crash.BRecord? && s' == AtCrash(s, p, BRecord(s'.beat.crash.decision))
    case BRecord(d) =>
      s' == AtCrash(s, p, BUnlock).(sh := Recorded(s.sh, a, d))
    case BUnlock =>
      s' == s.(beat := Checking(p.todo, p.now), sh := Release(s.sh, a))
  }

  /** crashAgent is about to set its sentinel. */
  predicate AtSentinel(s: State) {
    s.beat.Crashing? && s.beat.crash.BSentinel?
  }

  predicate Stale(h: Shared, a: AgentId, now: Time) {
    a in h.agents && Busy(h.agents[a].state) && Millis(now) - h.agents[a].lastHeartbeat > h.staleMillis
  }

  /** The steps of checkHeartbeats around crashAgent; they only read the shared state. */
  ghost predicate CheckNext(h: Shared, p: BeatPc, p': BeatPc, faulty: bool)
    requires !p.Crashing?
  {
    match p
    case Waiting =>
      p'.Checking? && Listing(p'.todo, h.agents) && p' == Checking(p'.todo, h.now)
    case Checking(todo, now) =>
      if todo == [] then p' == Waiting
      else
        || (faulty && p' == Checking(todo[1..], now))
        || p' == if Stale(h, todo[0], now) then Crashing(todo[0], BMutex, todo[1..], now)
                 else Checking(todo[1..], now)
  }

  ghost predicate BeatStep(s: State, s': State, faulty: bool) {
    if s.beat.Crashing? then CrashStep(s, s', s.beat, faulty)
    else s' == s.(beat := s'.beat) && CheckNext(s.sh, s.beat, s'.beat, faulty)
  }

  // ---------------------------------------------------------------- the RPCs

  function Goto(s: State, tid: nat, c: Call): State {
    s.(calls := s.calls[tid := c])
  }

  /** The RPC returns to its caller. */
  function Return(s: State, tid: nat): State {
    s.(calls := s.calls - {tid})
  }

  ghost predicate RegisterStep(s: State, s': State, tid: nat, c: Call, faulty: bool)
    requires c.Register?
  {
    var a := c.agent;
    match c.register
    case RStore =>
      || (faulty && s' == Return(s, tid))
      || s' == Goto(s, tid, c.(register := RMutex))
               .(sh := Put(s.sh, a, Fields(Idle, Millis(s.sh.now), "", 0.0, Millis(s.sh.now))))
    case RMutex =>
      // A Stop that comes in between leaves the record without a mutex.
      || s' == Return(s, tid)
      || s' == Return(s, tid).(sh := s.sh.(mutexes := s.sh.mutexes + {a}))
  }

  ghost predicate HeartbeatStep(s: State, s': State, tid: nat, c: Call, faulty: bool)
    requires c.Heartbeat?
  {
    var a := c.agent;
    match c.beat
    case HMutex =>
      s' == if a in s.sh.mutexes then Goto(s, tid, c.(beat := HLock)) else Return(s, tid)
    case HLock =>
      Free(s.sh, a) && s' == Goto(s, tid, c.(beat := HRead)).(sh := Acquire(s.sh, a, Rpc(tid)))
    case HRead =>
      || (faulty && s' == Goto(s, tid, c.(beat := HUnlock)))
      || s' == Goto(s, tid, c.(beat := if a in s.sh.agents then HWrite(s.sh.agents[a]) else HUnlock))
    case HWrite(cur) =>
      || (faulty && s' == Goto(s, tid, c.(beat := HUnlock)))
      || s' == Goto(s, tid, c.(beat := HUnlock)).(sh := Put(s.sh, a, cur.(lastHeartbeat := Millis(s.sh.now))))
    case HUnlock =>
      s' == Return(s, tid).(sh := Release(s.sh, a))
  }

  /** StartWork and ReportOutput end: unlock if they ever locked. */
  function Leave(s: State, tid: nat, c: Call, locked: bool): State
    requires c.Work?
  {
    if locked then Goto(s, tid, c.(work := WUnlock)) else Return(s, tid)
  }

  ghost predicate WorkStep(s: State, s': State, tid: nat, c: Call, faulty: bool)
    requires c.Work?
  {
    var a := c.agent;
    match c.work
    case WMutex =>
      s' == Goto(s, tid, c.(work := if a in s.sh.mutexes then WLock else WRead(false)))
    case WLock =>
      Free(s.sh, a) && s' == Goto(s, tid, c.(work := WRead(true))).(sh := Acquire(s.sh, a, Rpc(tid)))
    case WRead(locked) =>
      || (faulty && s' == Leave(s, tid, c, locked))
      || s' == if Accepts(s.sh, a, c.event) then Goto(s, tid, c.(work := WCas(locked, s.sh.agents[a].state)))
               else Leave(s, tid, c, locked)
    case WCas(locked, seen) =>
      || (faulty && s' == Leave(s, tid, c, locked))
      || s' == if Still(s.sh, a, seen) && NextState(seen, c.event).Some?
               then Leave(s, tid, c, locked).(sh := Move(s.sh, a, NextState(seen, c.event).value))
               else Leave(s, tid, c, locked)
    case WUnlock =>
      s' == Return(s, tid).(sh := Release(s.sh, a))
  }

  /** The task id completeAgent signals, from the caller's claim and the store's record. */
  function SignalFor(claimed: TaskId, recorded: TaskId): TaskId {
    if recorded == "" then claimed else recorded
  }

  /** Complete is called with a non-empty id only. */
  function Signals(signal: TaskId): multiset<TaskId> {
    if signal == "" then multiset{} else multiset{signal}
  }

  ghost predicate DoneStep(s: State, s': State, tid: nat, c: Call, faulty: bool)
    requires c.Done?
  {
    var a := c.agent;
    match c.done
    case DMutex =>
      s' == if a in s.sh.mutexes then Goto(s, tid, c.(done := DLock)) else Return(s, tid)
    case DLock =>
      Free(s.sh, a) && s' == Goto(s, tid, c.(done := DRead)).(sh := Acquire(s.sh, a, Rpc(tid)))
    case DRead =>
      || (faulty && s' == Goto(s, tid, c.(done := DUnlock)))
      || s' == Goto(s, tid, c.(done := if Accepts(s.sh, a, OutputDelivered) then DCas(s.sh.agents[a].state)
                                       else DUnlock))
    case DCas(seen) =>
      || (faulty && s' == Goto(s, tid, c.(done := DUnlock)))
      || s' == if Still(s.sh, a, seen)
               then
                 var f := s.sh.agents[a];
                 Goto(s, tid, c.(done := DFields(Task(f.task, f.priority))))
                 .(sh := Move(s.sh, a, Idle), hist := s.hist.(delivered := s.hist.delivered + Bound(f)))
               else Goto(s, tid, c.(done := DUnlock))
    case DFields(done) =>
      || (faulty && s' == Goto(s, tid, c.(done := DSignal(done, c.claimed))))
      || s' == Goto(s, tid, c.(done := DSignal(done, if a in s.sh.agents
                                                     then SignalFor(c.claimed, s.sh.agents[a].task) else c.claimed)))
    case DSignal(done, signal) =>
      s' == Goto(s, tid, c.(done := DClear)).(hist := s.hist.(signalled := s.hist.signalled + Signals(signal)))
    case DClear =>
      || (faulty && s' == Goto(s, tid, c.(done := DReset)))
      || s' == if a in s.sh.agents
               then Goto(s, tid, c.(done := DReset))
                    .(sh := Put(s.sh, a, s.sh.agents[a].(task := "", priority := 0.0)))
               else Goto(s, tid, c.(done := DReset))
    case DReset =>
      s' == Goto(s, tid, c.(done := DUnlock)).(sh := Reset(s.sh, a))
    case DUnlock =>
      s' == Return(s, tid).(sh := Release(s.sh, a))
  }

  ghost predicate CallStep(s: State, s': State, tid: nat, faulty: bool)
    requires tid in s.calls
  {
    var c := s.calls[tid];
    match c
    case Register(_, _) => RegisterStep(s, s', tid, c, faulty)
    case Heartbeat(_, _) => HeartbeatStep(s, s', tid, c, faulty)
    case Work(_, _, _) => WorkStep(s, s', tid, c, faulty)
    case Done(_, _, _) => DoneStep(s, s', tid, c, faulty)
  }

  /** The call is about to run Complete. */
  predicate AtSignal(s: State, tid: nat) {
    tid in s.calls && s.calls[tid].Done? && s.calls[tid].done.DSignal?
  }

  // ---------------------------------------------------------------- the environment

  /** A client submits a task through EnqueueTask, which takes any id, the empty one included. */
  ghost predicate SubmitStep(s: State, s': State, t: Task) {
    && Enqueued(s.sh.queue, t, s'.sh.queue)
    && s' == s.(sh := s.sh.(queue := s'.sh.queue), hist := s.hist.(submitted := s.hist.submitted + multiset{t}))
  }

  ghost predicate TickStep(s: State, s': State) {
    s.sh.now <= s'.sh.now && s' == s.(sh := s.sh.(now := s'.sh.now))
  }

  /** A new RPC at its first step.  Registration uses an id never issued before. */
  predicate Arrival(s: State, c: Call) {
    match c
    case Register(a, r) => r.RStore? && a !in s.sh.issued
    case Heartbeat(_, h) => h.HMutex?
    case Work(_, e, w) => w.WMutex? && (e == WorkStarted || e == OutputReady)
    case Done(_, _, d) => d.DMutex?
  }

  ghost predicate ArriveStep(s: State, s': State, tid: nat, c: Call) {
    tid !in s.calls && Arrival(s, c)
    && s' == Goto(s, tid, c).(sh := s.sh.(issued := if c.Register? then s.sh.issued + {c.agent} else s.sh.issued))
  }

  datatype Actor = Assigner | Beater | Caller(tid: nat) | Submitter(task: Task) | Arriver(tid: nat, call: Call) | Ticker

  ghost predicate Step(s: State, s': State, who: Actor, faulty: bool) {
    match who
    case Assigner => AssignStep(s, s', faulty)
    case Beater => BeatStep(s, s', faulty)
    case Caller(tid) => tid in s.calls && CallStep(s, s', tid, faulty)
    case Submitter(t) => SubmitStep(s, s', t)
    case Arriver(tid, c) => ArriveStep(s, s', tid, c)
    case Ticker => TickStep(s, s')
  }

  ghost predicate Init(s: State) {
    && s.sh.agents == map[] && s.sh.queue == [] && s.sh.mutexes == {} && s.sh.holder == map[]
    && s.sh.cooldown == map[] && s.sh.circuit == {} && s.sh.issued == {} && s.sh.bans == map[]
    && s.assign == Ready && s.beat == Waiting && s.calls == map[]
    && s.hist == History(multiset{}, multiset{}, multiset{}, multiset{})
  }

  /** A finite run: consecutive states differ by one step of some actor. */
  ghost predicate Run(states: seq<State>, actors: seq<Actor>, faulty: bool) {
    && |states| == |actors| + 1
    && Init(states[0])
    && forall i {:trigger actors[i]} :: 0 <= i < |actors| ==> Step(states[i], states[i + 1], actors[i], faulty)
  }
}
