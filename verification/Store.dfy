/**
 The in-memory store the binary runs.  Every method is one critical section of
 its mutex, so these contracts are what the supervisor's store steps rely on.
 */
module Store {
  import opened Types
  import opened Agent
  import opened SupervisorSystem

  datatype StoreError =
    | AgentNotFound
    | QueueEmpty
    | StateConflict(expected: AgentState, actual: AgentState)
    | Injected(message: string)

  datatype Event = Event(kind: string, agent: AgentId, task: TaskId, timestamp: int, payload: string)

  /** A stream entry; its id is the string "mock-" followed by `seqNo`. */
  datatype StreamEvent = StreamEvent(seqNo: nat, event: Event)

  /**
   A cursor string: "0", "0-0", the id of an entry, another string that scans as
   "mock-%d" (leading zeros, trailing text, a negative number), or anything else.
   */
  datatype Cursor = Zero | ZeroZero | Id(seqNo: nat) | Alias(scanned: int) | Foreign(text: string)

  /** The exclusive lower bound a cursor stands for, if it stands for one. */
  function LowerBound(c: Cursor): Option<int> {
    match c
    case Zero => Some(0)
    case ZeroZero => Some(0)
    case Id(n) => Some(n)
    case Alias(n) => Some(n)
    case Foreign(_) => None
  }

  // ---------------------------------------------------------------- the event stream

  /** The entries published after `last`, in order. */
  function After(entries: seq<StreamEvent>, last: int): seq<StreamEvent> {
    AfterOf(entries, |entries|, last)
  }

  /** Those among the first `n`. */
  function AfterOf(entries: seq<StreamEvent>, n: nat, last: int): seq<StreamEvent>
    requires n <= |entries|
  {
    if n == 0 then []
    else if entries[n - 1].seqNo > last then AfterOf(entries, n - 1, last) + [entries[n - 1]]
    else AfterOf(entries, n - 1, last)
  }

  function Take<T>(s: seq<T>, count: int): seq<T> {
    if count <= 0 then [] else if count <= |s| then s[..count] else s
  }

  /** Entries carry consecutive numbers, the newest one `newest`. */
  ghost predicate Contiguous(entries: seq<StreamEvent>, newest: nat) {
    |entries| <= newest && forall i :: 0 <= i < |entries| ==> entries[i].seqNo == newest - |entries| + 1 + i
  }

  lemma {:induction false} AfterOfGrows(entries: seq<StreamEvent>, m: nat, n: nat, last: int)
    requires m <= n <= |entries|
    ensures AfterOf(entries, m, last) <= AfterOf(entries, n, last)
  {
    if m < n {
      AfterOfGrows(entries, m, n - 1, last);
    }
  }

  /** How many of the entries a lower bound skips. */
  function Skipped(size: nat, newest: nat, last: int): nat
    requires size <= newest
  {
    var skipped := last - (newest - size);
    if skipped <= 0 then 0 else if skipped >= size then size else skipped
  }

  lemma {:induction false} AfterOfIsSuffix(entries: seq<StreamEvent>, newest: nat, n: nat, last: int)
    requires Contiguous(entries, newest) && n <= |entries|
    ensures var k := Skipped(|entries|, newest, last);
            AfterOf(entries, n, last) == if n <= k then [] else entries[k..n]
  {
    if n > 0 {
      AfterOfIsSuffix(entries, newest, n - 1, last);
      assert entries[n - 1].seqNo == newest - |entries| + n;
    }
  }

  /**
   On consecutive entries a lower bound cuts the stream in two, whether or not the
   entry it names is still there: a cursor outlives the trimming of its entry.
   */
  lemma AfterIsSuffix(entries: seq<StreamEvent>, newest: nat, last: int)
    requires Contiguous(entries, newest)
    ensures After(entries, last) == entries[Skipped(|entries|, newest, last)..]
  {
    AfterOfIsSuffix(entries, newest, |entries|, last);
  }

  // ---------------------------------------------------------------- sorting

  /** Where sort.Slice may put `t`: somewhere among its equals. */
  method Insert(q: seq<Task>, t: Task) returns (r: seq<Task>)
    requires ByPriority(q)
    ensures ByPriority(r) && multiset(r) == multiset(q) + multiset{t}
  {
    var i := 0;
    while i < |q| && q[i].priority <= t.priority
      invariant 0 <= i <= |q| && forall j :: 0 <= j < i ==> q[j].priority <= t.priority
    {
      i := i + 1;
    }
    Placed(q, t, i);
    r := q[..i] + [t] + q[i..];
    assert q == q[..i] + q[i..];
  }

  /** sort.Slice by priority; which of two equal priorities comes first is not promised. */
  method SortByPriority(q: seq<Task>) returns (r: seq<Task>)
    ensures ByPriority(r) && multiset(r) == multiset(q)
  {
    r := [];
    var i := 0;
    while i < |q|
      invariant 0 <= i <= |q| && ByPriority(r) && multiset(r) == multiset(q[..i])
    {
      assert q[..i + 1] == q[..i] + [q[i]];
      r := Insert(r, q[i]);
      i := i + 1;
    }
    assert q[..i] == q;
  }

  // ---------------------------------------------------------------- the store

  class MockStore {
    var agents: map<AgentId, Fields>
    var queue: seq<Task>
    var streamEvents: seq<StreamEvent>
    var streamSeq: nat

    // Failures a test may have configured.
    var compareAndSetErr: Option<string>
    var clearCurrentTaskErr: Option<string>
    var enqueueTaskErr: Option<string>
    var dequeueTaskErr: Option<string>
    var getAgentFieldsErr: Option<string>
    var setAgentFieldsErr: Option<string>
    var getAgentFieldsByAgent: map<AgentId, string>
    var setAgentFieldsByAgent: map<AgentId, string>

    ghost predicate Valid()
      reads `queue, `streamEvents, `streamSeq
    {
      ByPriority(queue) && Contiguous(streamEvents, streamSeq)
    }

    constructor ()
      ensures Valid() && agents == map[] && queue == [] && streamEvents == [] && streamSeq == 0
    {
      agents, queue, streamEvents, streamSeq := map[], [], [], 0;
      compareAndSetErr, clearCurrentTaskErr, enqueueTaskErr, dequeueTaskErr := None, None, None, None;
      getAgentFieldsErr, setAgentFieldsErr, getAgentFieldsByAgent, setAgentFieldsByAgent := None, None, map[], map[];
    }

    method GetAgentState(a: AgentId) returns (r: Result<AgentState, StoreError>)
      ensures r == if a in agents then Ok(agents[a].state) else Err(AgentNotFound)
    {
      if a !in agents {
        return Err(AgentNotFound);
      }
      r := Ok(agents[a].state);
    }

    /** Swaps exactly when the stored state is the expected one; every error leaves the store as it was. */
    method CompareAndSetAgentState(a: AgentId, expected: AgentState, next: AgentState)
      returns (r: Result<(), StoreError>)
      modifies this`agents
      ensures r.Ok? <==> compareAndSetErr.None? && a in old(agents) && old(agents)[a].state == expected
      ensures r.Ok? ==> agents == old(agents)[a := old(agents)[a].(state := next)]
      ensures r.Err? ==> agents == old(agents)
      ensures compareAndSetErr.Some? ==> r == Err(Injected(compareAndSetErr.value))
      ensures compareAndSetErr.None? && a !in old(agents) ==> r == Err(AgentNotFound)
      ensures compareAndSetErr.None? && a in old(agents) && r.Err? ==>
                r == Err(StateConflict(expected, old(agents)[a].state))
    {
      if compareAndSetErr.Some? {
        return Err(Injected(compareAndSetErr.value));
      }
      if a !in agents {
        return Err(AgentNotFound);
      }
      if agents[a].state != expected {
        return Err(StateConflict(expected, agents[a].state));
      }
      agents := agents[a := agents[a].(state := next)];
      r := Ok(());
    }

    method SetAgentFields(a: AgentId, fields: Fields) returns (r: Result<(), StoreError>)
      modifies this`agents
      ensures r.Ok? <==> a !in setAgentFieldsByAgent && setAgentFieldsErr.None?
      ensures agents == if r.Ok? then old(agents)[a := fields] else old(agents)
    {
      if a in setAgentFieldsByAgent {
        return Err(Injected(setAgentFieldsByAgent[a]));
      }
      if setAgentFieldsErr.Some? {
        return Err(Injected(setAgentFieldsErr.value));
      }
      agents := agents[a := fields];
      r := Ok(());
    }

    method GetAgentFields(a: AgentId) returns (r: Result<Fields, StoreError>)
      ensures r.Ok? <==> a !in getAgentFieldsByAgent && getAgentFieldsErr.None? && a in agents
      ensures r.Ok? ==> r.value == agents[a]
      ensures r == Err(AgentNotFound) <==> a !in getAgentFieldsByAgent && getAgentFieldsErr.None? && a !in agents
    {
      if a in getAgentFieldsByAgent {
        return Err(Injected(getAgentFieldsByAgent[a]));
      }
      if getAgentFieldsErr.Some? {
        return Err(Injected(getAgentFieldsErr.value));
      }
      if a !in agents {
        return Err(AgentNotFound);
      }
      r := Ok(agents[a]);
    }

    /** Every known id once, in an order that is not promised. */
    method ListAgents() returns (ids: seq<AgentId>)
      ensures Listing(ids, agents) && |ids| == |agents|
      ensures forall i, j :: 0 <= i < j < |ids| ==> ids[i] != ids[j]
    {
      ids := [];
      var todo := agents.Keys;
      while todo != {}
        invariant forall i, j :: 0 <= i < j < |ids| ==> ids[i] != ids[j]
        invariant todo <= agents.Keys && forall a :: a in ids <==> a in agents.Keys - todo
        invariant |ids| + |todo| == |agents.Keys|
        decreases |todo|
      {
        var a :| a in todo;
        assert a !in ids;
        ids := ids + [a];
        todo := todo - {a};
      }
    }

    method ClearCurrentTask(a: AgentId) returns (r: Result<(), StoreError>)
      modifies this`agents
      ensures r.Ok? <==> clearCurrentTaskErr.None? && a in old(agents)
      ensures agents == if r.Ok? then old(agents)[a := old(agents)[a].(task := "", priority := 0.0)] else old(agents)
    {
      if clearCurrentTaskErr.Some? {
        return Err(Injected(clearCurrentTaskErr.value));
      }
      if a !in agents {
        return Err(AgentNotFound);
      }
      agents := agents[a := agents[a].(task := "", priority := 0.0)];
      r := Ok(());
    }

    method EnqueueTask(t: Task) returns (r: Result<(), StoreError>)
      requires Valid()
      modifies this`queue
      ensures Valid()
      ensures r.Ok? <==> enqueueTaskErr.None?
      ensures r.Ok? ==> Enqueued(old(queue), t, queue)
      ensures r.Err? ==> queue == old(queue)
    {
      if enqueueTaskErr.Some? {
        return Err(Injected(enqueueTaskErr.value));
      }
      var sorted := SortByPriority(queue + [t]);
      queue := sorted;
      r := Ok(());
    }

    /** Hands out a task of minimal priority; an equal one may be older. */
    method DequeueTask() returns (r: Result<Task, StoreError>)
      requires Valid()
      modifies this`queue
      ensures Valid()
      ensures r.Ok? <==> dequeueTaskErr.None? && old(queue) != []
      ensures r.Ok? ==> multiset(old(queue)) == multiset(queue) + multiset{r.value}
                        && forall t :: t in old(queue) ==> r.value.priority <= t.priority
      ensures r.Ok? ==> r.value == old(queue)[0] && queue == old(queue)[1..]
      ensures r.Err? ==> queue == old(queue)
      ensures r.Err? ==> r == Err(if dequeueTaskErr.Some? then Injected(dequeueTaskErr.value) else QueueEmpty)
    {
      if dequeueTaskErr.Some? {
        return Err(Injected(dequeueTaskErr.value));
      }
      if |queue| == 0 {
        return Err(QueueEmpty);
      }
      var item := queue[0];
      assert queue == [item] + queue[1..];
      queue := queue[1..];
      r := Ok(item);
    }

    method PublishEvent(event: Event, nowMillis: int)
      requires Valid()
      modifies this`streamEvents, this`streamSeq
      ensures Valid() && streamSeq == old(streamSeq) + 1
      ensures streamEvents == old(streamEvents)
                              + [StreamEvent(streamSeq, if event.timestamp == 0
                                                        then event.(timestamp := nowMillis) else event)]
    {
      var stamped := event;
      if stamped.timestamp == 0 {
        stamped := stamped.(timestamp := nowMillis);
      }
      streamSeq := streamSeq + 1;
      streamEvents := streamEvents + [StreamEvent(streamSeq, stamped)];
    }

    /** Up to `count` entries above the cursor's lower bound; a foreign cursor reads nothing. */
    method ReadEvents(last: Cursor, count: int) returns (r: seq<StreamEvent>)
      requires Valid()
      ensures LowerBound(last).None? ==> r == []
      ensures LowerBound(last).Some? ==> r == Take(After(streamEvents, LowerBound(last).value), count)
    {
      r := [];
      var i := 0;
      if last == Zero || last == ZeroZero {
        while i < |streamEvents|
          invariant 0 <= i <= |streamEvents| && r == streamEvents[..i] && i <= (if count < 0 then 0 else count)
        {
          if |r| >= count {
            break;
          }
          r := r + [streamEvents[i]];
          i := i + 1;
        }
        AfterIsSuffix(streamEvents, streamSeq, 0);
        return;
      }
      if last.Foreign? {
        return;
      }
      var lastSeq: int := if last.Id? then last.seqNo else last.scanned;
      while i < |streamEvents|
        invariant 0 <= i <= |streamEvents| && r == AfterOf(streamEvents, i, lastSeq)
        invariant |r| <= (if count < 0 then 0 else count)
      {
        if streamEvents[i].seqNo > lastSeq {
          if |r| >= count {
            break;
          }
          r := r + [streamEvents[i]];
        }
        i := i + 1;
      }
      AfterOfGrows(streamEvents, i, |streamEvents|, lastSeq);
    }

    /** Keeps the newest entries; the numbering of what is left does not change. */
    method TrimEvents(keep: int)
      requires Valid()
      modifies this`streamEvents
      ensures Valid()
      ensures var kept := if keep < 0 then 0 else if keep > |old(streamEvents)| then |old(streamEvents)| else keep;
              streamEvents == old(streamEvents)[|old(streamEvents)| - kept..]
      ensures forall last: int :: last >= streamSeq - |streamEvents| ==>
                                After(streamEvents, last) == After(old(streamEvents), last)
    {
      ghost var before := streamEvents;
      var limit := if keep < 0 then 0 else keep;
      if |streamEvents| > limit {
        streamEvents := streamEvents[|streamEvents| - limit..];
      }
      forall last: int | last >= streamSeq - |streamEvents| ensures After(streamEvents, last) == After(before, last) {
        AfterIsSuffix(streamEvents, streamSeq, last);
        AfterIsSuffix(before, streamSeq, last);
      }
    }
  }

  // ---------------------------------------------------------------- ApplyEvent

  datatype TransitionError =
    | Store(error: StoreError)
    | Unparsable(raw: string)
    | Invalid(from: AgentState, event: AgentEvent)

  /** What ApplyEvent returns when it succeeds. */
  datatype AgentSnapshot = AgentSnapshot(agent: AgentId, previous: AgentState, state: AgentState, event: AgentEvent)

  class Machine {
    const store: MockStore

    constructor (s: MockStore)
      ensures store == s
    {
      store := s;
    }

    /** Undisturbed, ApplyEvent moves the agent along the table or changes nothing. */
    method ApplyEvent(a: AgentId, event: AgentEvent) returns (r: Result<AgentSnapshot, TransitionError>)
      modifies store`agents
      ensures r.Ok? <==> store.compareAndSetErr.None? && a in old(store.agents)
                         && NextState(old(store.agents)[a].state, event).Some?
      ensures r.Ok? ==>
                && store.agents == old(store.agents)[a := old(store.agents)[a].(state := r.value.state)]
                && r.value == AgentSnapshot(a, old(store.agents)[a].state, store.agents[a].state, event)
                && ValidTransition(r.value.previous, event) == Some(r.value.state)
      ensures r.Err? ==> store.agents == old(store.agents)
      ensures r.Err? ==>
                r.error == if a !in old(store.agents) then Store(AgentNotFound)
                           else if old(store.agents)[a].state.Unrecognised?
                           then Unparsable(old(store.agents)[a].state.raw)
                           else if ValidTransition(old(store.agents)[a].state, event).None?
                           then Invalid(old(store.agents)[a].state, event)
                           else Store(Injected(store.compareAndSetErr.value))
    {
      var raw := store.GetAgentState(a);
      if raw.Err? {
        return Err(Store(raw.error));
      }
      var current := raw.value;
      if current.Unrecognised? {
        return Err(Unparsable(current.raw));
      }
      var next := ValidTransition(current, event);
      if next.None? {
        return Err(Invalid(current, event));
      }
      var swapped := store.CompareAndSetAgentState(a, current, next.value);
      if swapped.Err? {
        return Err(Store(swapped.error));
      }
      r := Ok(AgentSnapshot(a, current, next.value, event));
    }
  }
}
