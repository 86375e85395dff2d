/**
 Concurrent ApplyEvent calls.  A call reads the agent's state in one step and
 compares-and-sets it in a later one; any number of calls on any agents
 interleave, and a store call may fail without effect.
 */
module TransitionRuns {
  import opened Types
  import opened Agent

  datatype Fault = NotFound | Unparsable | Invalid | Conflict | StoreError

  /** What ApplyEvent returns on success. */
  datatype Snapshot = Snapshot(agent: AgentId, previous: AgentState, state: AgentState, event: AgentEvent)

  /** A call: to read, to swap, or returned. */
  datatype Call =
    | Reading(agent: AgentId, event: AgentEvent)
    | Swapping(agent: AgentId, event: AgentEvent, seen: AgentState, next: AgentState)
    | Finished(result: Result<Snapshot, Fault>)

  /** One successful swap, and the call that made it. */
  datatype Change = Change(caller: nat, from: AgentState, event: AgentEvent, to: AgentState)

  /** `trail` is history: the successful swaps on each agent, oldest first. */
  datatype State = State(store: map<AgentId, AgentState>, calls: map<nat, Call>, trail: map<AgentId, seq<Change>>)

  datatype Action =
    | Create(a: AgentId)
    | Arrive(tid: nat, a: AgentId, event: AgentEvent)
    | Read(tid: nat, fails: bool)
    | Swap(tid: nat, fails: bool)

  predicate Enabled(s: State, act: Action) {
    match act
    case Create(a) => a !in s.store
    case Arrive(tid, _, _) => tid !in s.calls
    case Read(tid, _) => tid in s.calls && s.calls[tid].Reading?
    case Swap(tid, _) => tid in s.calls && s.calls[tid].Swapping?
  }

  function Finish(s: State, tid: nat, r: Result<Snapshot, Fault>): State {
    s.(calls := s.calls[tid := Finished(r)])
  }

  /** GetAgentState, ParseAgentState and ValidTransition. */
  function ReadNext(s: State, tid: nat, a: AgentId, event: AgentEvent, fails: bool): State {
    if fails then Finish(s, tid, Err(StoreError))
    else if a !in s.store then Finish(s, tid, Err(NotFound))
    else if s.store[a].Unrecognised? then Finish(s, tid, Err(Unparsable))
    else
      match ValidTransition(s.store[a], event)
      case None => Finish(s, tid, Err(Invalid))
      case Some(next) => s.(calls := s.calls[tid := Swapping(a, event, s.store[a], next)])
  }

  function TrailOf(s: State, a: AgentId): seq<Change> {
    if a in s.trail then s.trail[a] else []
  }

  /** CompareAndSetAgentState. */
  function SwapNext(s: State, tid: nat, c: Call, fails: bool): State
    requires c.Swapping?
  {
    if fails then Finish(s, tid, Err(StoreError))
    else if c.agent !in s.store then Finish(s, tid, Err(NotFound))
    else if s.store[c.agent] != c.seen then Finish(s, tid, Err(Conflict))
    else
      Finish(s, tid, Ok(Snapshot(c.agent, c.seen, c.next, c.event)))
      .(store := s.store[c.agent := c.next],
        trail := s.trail[c.agent := TrailOf(s, c.agent) + [Change(tid, c.seen, c.event, c.next)]])
  }

  function Next(s: State, act: Action): State
    requires Enabled(s, act)
  {
    match act
    case Create(a) => s.(store := s.store[a := Idle])
    case Arrive(tid, a, event) => s.(calls := s.calls[tid := Reading(a, event)])
    case Read(tid, fails) => ReadNext(s, tid, s.calls[tid].agent, s.calls[tid].event, fails)
    case Swap(tid, fails) => SwapNext(s, tid, s.calls[tid], fails)
  }

  ghost predicate Run(states: seq<State>, acts: seq<Action>) {
    && |states| == |acts| + 1
    && states[0] == State(map[], map[], map[])
    && forall i :: 0 <= i < |acts| ==> Enabled(states[i], acts[i]) && states[i + 1] == Next(states[i], acts[i])
  }

  // ---------------------------------------------------------------- the invariant

  /** The state an agent is in after its first `k` changes. */
  function After(trail: seq<Change>, k: nat): AgentState
    requires k <= |trail|
  {
    if k == 0 then Idle else trail[k - 1].to
  }

  /** The k-th change starts where the agent was and follows the table. */
  predicate LegalStep(trail: seq<Change>, k: nat)
    requires k < |trail|
  {
    trail[k].from == After(trail, k) && ValidTransition(trail[k].from, trail[k].event) == Some(trail[k].to)
  }

  /** A path of the transition table that starts at idle. */
  ghost predicate LegalPath(trail: seq<Change>) {
    forall k :: 0 <= k < |trail| ==> LegalStep(trail, k)
  }

  /** The call made this change and reported it. */
  predicate Reports(c: Call, a: AgentId, ch: Change) {
    c == Finished(Ok(Snapshot(a, ch.from, ch.to, ch.event)))
  }

  /** Every change on the agent's trail was reported by its caller, and by no two the same. */
  ghost predicate Reported(calls: map<nat, Call>, a: AgentId, trail: seq<Change>) {
    && (forall k :: 0 <= k < |trail| ==> trail[k].caller in calls && Reports(calls[trail[k].caller], a, trail[k]))
    && (forall j, k :: 0 <= j < k < |trail| ==> trail[j].caller != trail[k].caller)
  }

  ghost predicate AgentOk(s: State, a: AgentId) {
    && LegalPath(TrailOf(s, a))
    && Reported(s.calls, a, TrailOf(s, a))
    && (a in s.store ==> s.store[a] == After(TrailOf(s, a), |TrailOf(s, a)|))
    && (a !in s.store ==> TrailOf(s, a) == [])
  }

  ghost predicate CallOk(s: State, tid: nat)
    requires tid in s.calls
  {
    match s.calls[tid]
    case Reading(_, _) => true
    case Swapping(a, event, seen, next) => ValidTransition(seen, event) == Some(next)
    case Finished(Err(_)) => true
    case Finished(Ok(snap)) =>
      Change(tid, snap.previous, snap.event, snap.state) in TrailOf(s, snap.agent)
  }

  ghost predicate Inv(s: State) {
    (forall a :: AgentOk(s, a)) && (forall tid :: tid in s.calls ==> CallOk(s, tid))
  }

  /** A step of the table extends a legal path. */
  lemma PathGrows(trail: seq<Change>, ch: Change)
    requires LegalPath(trail) && ch.from == After(trail, |trail|) && ValidTransition(ch.from, ch.event) == Some(ch.to)
    ensures LegalPath(trail + [ch])
  {
    var longer := trail + [ch];
    forall k | 0 <= k < |longer| ensures LegalStep(longer, k) {
      assert After(longer, k) == After(trail, k);
      assert k < |trail| ==> LegalStep(trail, k) && longer[k] == trail[k];
    }
  }

  /** A call that has not returned can move on, and its own change can be added. */
  lemma ReportsGrow(calls: map<nat, Call>, a: AgentId, trail: seq<Change>, tid: nat, c: Call)
    requires Reported(calls, a, trail) && (tid in calls ==> !calls[tid].Finished?)
    ensures Reported(calls[tid := c], a, trail)
    ensures forall ch: Change :: ch.caller == tid && Reports(c, a, ch) ==> Reported(calls[tid := c], a, trail + [ch])
  {
  }

  /** The swap was made and is the newest change on the trail of `a`. */
  predicate Swapped(s: State, act: Action, a: AgentId) {
    && act.Swap? && !act.fails && act.tid in s.calls && s.calls[act.tid].Swapping?
    && s.calls[act.tid].agent == a && a in s.store && s.store[a] == s.calls[act.tid].seen
  }

  lemma TrailStep(s: State, act: Action, a: AgentId)
    requires Enabled(s, act)
    ensures var s' := Next(s, act);
            if Swapped(s, act, a)
            then
              var c := s.calls[act.tid];
              && TrailOf(s', a) == TrailOf(s, a) + [Change(act.tid, c.seen, c.event, c.next)]
              && a in s'.store && s'.store[a] == c.next
              && s'.calls == s.calls[act.tid := Finished(Ok(Snapshot(a, c.seen, c.next, c.event)))]
            else
              && TrailOf(s', a) == TrailOf(s, a)
              && (a in s.store ==> a in s'.store && s'.store[a] == s.store[a])
              && (a !in s.store && a in s'.store ==> s'.store[a] == Idle)
              && (act.Create? ==> s'.calls == s.calls)
              && (!act.Create? ==> act.tid in s'.calls && s'.calls == s.calls[act.tid := s'.calls[act.tid]])
  {
  }

  lemma AgentStep(s: State, act: Action, a: AgentId)
    requires Enabled(s, act) && AgentOk(s, a)
    requires act.Swap? ==> CallOk(s, act.tid)
    ensures AgentOk(Next(s, act), a)
  {
    TrailStep(s, act, a);
    var s', trail := Next(s, act), TrailOf(s, a);
    if Swapped(s, act, a) {
      var c := s.calls[act.tid];
      ReportsGrow(s.calls, a, trail, act.tid, s'.calls[act.tid]);
      PathGrows(trail, Change(act.tid, c.seen, c.event, c.next));
    } else if !act.Create? {
      ReportsGrow(s.calls, a, trail, act.tid, s'.calls[act.tid]);
    }
  }

  lemma CallStep(s: State, act: Action, tid: nat)
    requires Enabled(s, act) && tid in Next(s, act).calls
    requires tid in s.calls ==> CallOk(s, tid)
    ensures CallOk(Next(s, act), tid)
  {
    var s' := Next(s, act);
    assert forall a :: TrailOf(s, a) <= TrailOf(s', a);
    if act.Swap? && act.tid == tid && s'.calls[tid].result.Ok? {
      var t := TrailOf(s', s.calls[tid].agent);
      assert t[|t| - 1].caller == tid;
    }
  }

  lemma {:induction false} RunInv(states: seq<State>, acts: seq<Action>, n: nat)
    requires Run(states, acts) && n < |states|
    ensures Inv(states[n])
  {
    if n > 0 {
      RunInv(states, acts, n - 1);
      var s, act := states[n - 1], acts[n - 1];
      forall a ensures AgentOk(states[n], a) {
        AgentStep(s, act, a);
      }
      forall tid | tid in states[n].calls ensures CallOk(states[n], tid) {
        CallStep(s, act, tid);
      }
    }
  }

  // ---------------------------------------------------------------- the theorems

  /** Every agent's history is a path of the transition table from idle to its current state. */
  lemma HistoriesAreLegal(states: seq<State>, acts: seq<Action>, n: nat, a: AgentId)
    requires Run(states, acts) && n < |states|
    ensures LegalPath(TrailOf(states[n], a))
    ensures a in states[n].store ==> states[n].store[a] == After(TrailOf(states[n], a), |TrailOf(states[n], a)|)
  {
    RunInv(states, acts, n);
    assert AgentOk(states[n], a);
  }

  /** Between two task_assigned changes the agent came back to idle. */
  lemma IdleBetween(trail: seq<Change>, i: nat, j: nat)
    requires LegalPath(trail) && i < j < |trail|
    requires trail[i].event == TaskAssigned && trail[j].event == TaskAssigned
    ensures exists k :: i < k < j && trail[k].to == Idle
  {
    assert LegalStep(trail, i) && LegalStep(trail, j);
    assert trail[j - 1].to == Idle;
  }

  /** A call that reports success made exactly one change. */
  lemma OneChange(states: seq<State>, acts: seq<Action>, n: nat, t: nat, snap: Snapshot) returns (i: nat)
    requires Run(states, acts) && n < |states|
    requires t in states[n].calls && states[n].calls[t] == Finished(Ok(snap))
    ensures var trail := TrailOf(states[n], snap.agent);
            && i < |trail| && trail[i] == Change(t, snap.previous, snap.event, snap.state)
            && LegalPath(trail) && forall k :: 0 <= k < |trail| && trail[k].caller == t ==> k == i
  {
    RunInv(states, acts, n);
    assert CallOk(states[n], t) && AgentOk(states[n], snap.agent);
    var trail := TrailOf(states[n], snap.agent);
    i :| 0 <= i < |trail| && trail[i] == Change(t, snap.previous, snap.event, snap.state);
  }

  /**
   Calls that report success made exactly one change each; and of two successful
   task_assigned calls on an agent the later one found it idle again: one winner per
   visit to idle.
   */
  lemma OneWinnerPerIdleVisit(states: seq<State>, acts: seq<Action>, n: nat, a: AgentId,
                              t: nat, x: Snapshot, u: nat, y: Snapshot) returns (i: nat, j: nat)
    requires Run(states, acts) && n < |states| && t != u
    requires t in states[n].calls && states[n].calls[t] == Finished(Ok(x))
    requires u in states[n].calls && states[n].calls[u] == Finished(Ok(y))
    requires x.agent == y.agent == a && x.event == y.event == TaskAssigned
    ensures var trail := TrailOf(states[n], a);
            && i < |trail| && j < |trail| && i != j && trail[i].caller == t && trail[j].caller == u
            && (forall k :: 0 <= k < |trail| && trail[k].caller == t ==> k == i)
            && (i < j ==> exists k :: i < k < j && trail[k].to == Idle)
            && (j < i ==> exists k :: j < k < i && trail[k].to == Idle)
  {
    i := OneChange(states, acts, n, t, x);
    j := OneChange(states, acts, n, u, y);
    var trail := TrailOf(states[n], a);
    if i < j {
      IdleBetween(trail, i, j);
    } else {
      IdleBetween(trail, j, i);
    }
  }

  /** A call that reports an error made no change at all, whatever ran beside it. */
  lemma FailureChangesNothing(states: seq<State>, acts: seq<Action>, n: nat, t: nat, a: AgentId)
    requires Run(states, acts) && n < |states|
    requires t in states[n].calls && states[n].calls[t].Finished? && states[n].calls[t].result.Err?
    ensures forall ch :: ch in TrailOf(states[n], a) ==> ch.caller != t
  {
    RunInv(states, acts, n);
    assert AgentOk(states[n], a);
  }

  /** The store only ever changes by a swap that its caller reports, or by a creation. */
  lemma ChangesAreReported(states: seq<State>, acts: seq<Action>, n: nat, a: AgentId)
    requires Run(states, acts) && n < |acts|
    requires a in states[n].store && (a in states[n + 1].store ==> states[n + 1].store[a] != states[n].store[a])
    ensures acts[n].Swap? && acts[n].tid in states[n + 1].calls
    ensures states[n + 1].calls[acts[n].tid].Finished? && states[n + 1].calls[acts[n].tid].result.Ok?
    ensures states[n + 1].calls[acts[n].tid].result.value.agent == a
  {
    assert states[n + 1] == Next(states[n], acts[n]);
  }

  /** A call past its read stays as it is until its own swap. */
  lemma {:induction false} SwappingWaits(states: seq<State>, acts: seq<Action>, m: nat, n: nat, tid: nat)
    requires Run(states, acts) && m <= n < |states|
    requires tid in states[m].calls && !states[m].calls[tid].Reading?
    ensures tid in states[n].calls && (states[n].calls[tid] == states[m].calls[tid] || states[n].calls[tid].Finished?)
  {
    if m < n {
      SwappingWaits(states, acts, m, n - 1, tid);
      assert states[n] == Next(states[n - 1], acts[n - 1]);
    }
  }

  /**
   When a call succeeds, however others interleave: its read finds a known agent in a
   recognised state that accepts the event, and its swap finds this same state, with
   neither failing.  Then it moves the agent to the state the table names.
   */
  lemma CallSucceedsIff(states: seq<State>, acts: seq<Action>, m: nat, n: nat, tid: nat)
    requires Run(states, acts) && m < n < |acts|
    requires acts[m].Read? && acts[m].tid == tid && acts[n].Swap? && acts[n].tid == tid
    ensures var c, s, t := states[m].calls[tid], states[n], states[n + 1];
            && c.agent in states[m].store && !acts[m].fails && !states[m].store[c.agent].Unrecognised?
            && ValidTransition(states[m].store[c.agent], c.event).Some?
            && tid in t.calls && t.calls[tid].Finished?
            && (t.calls[tid].result.Ok? <==>
                  !acts[n].fails && c.agent in s.store && s.store[c.agent] == states[m].store[c.agent])
            && (t.calls[tid].result.Ok? ==> t.store == s.store[c.agent :=
                  ValidTransition(states[m].store[c.agent], c.event).value])
  {
    assert states[m + 1] == Next(states[m], acts[m]);
    SwappingWaits(states, acts, m + 1, n, tid);
    assert states[n + 1] == Next(states[n], acts[n]);
  }

  /** A call ends at its read exactly where there is nothing to swap. */
  lemma ReadGoesOnIff(s: State, tid: nat, fails: bool)
    requires Enabled(s, Read(tid, fails))
    ensures var c, d := s.calls[tid], Next(s, Read(tid, fails)).calls[tid];
            && (d.Swapping? || (d.Finished? && d.result.Err?))
            && (d.Swapping? <==>
                  !fails && c.agent in s.store && !s.store[c.agent].Unrecognised?
                  && ValidTransition(s.store[c.agent], c.event).Some?)
  {
  }
}
