/**
 Runs of the supervisor, and how they can go on.  A path is a stretch of a run
 whose steps neither signal a completion nor set a crash's sentinel: a path from
 an initial state is a run without signals, and two paths around one step that
 sets a sentinel are a run with this sentinel alone.  `Leads` says that some path
 exists, and `On` prolongs it by a step.
 */
module SupervisorPaths {
  import opened Types
  import opened Agent
  import opened SupervisorSystem

  ghost predicate Ends(states: seq<State>, s: State) {
    states != [] && states[|states| - 1] == s
  }

  /** Some run leads to the state. */
  ghost predicate Reachable(s: State, faulty: bool) {
    exists states, actors :: Run(states, actors, faulty) && Ends(states, s)
  }

  /** The step runs no Complete and sets no sentinel. */
  predicate Quiet(s: State, who: Actor) {
    !(who.Caller? && AtSignal(s, who.tid)) && !(who.Beater? && AtSentinel(s))
  }

  /** Consecutive states differ by one quiet step. */
  ghost predicate Path(states: seq<State>, actors: seq<Actor>, faulty: bool) {
    && |states| == |actors| + 1
    && forall i {:trigger actors[i]} :: 0 <= i < |actors| ==>
         Step(states[i], states[i + 1], actors[i], faulty) && Quiet(states[i], actors[i])
  }

  ghost predicate Joins(states: seq<State>, s: State, s': State) {
    states != [] && states[0] == s && states[|states| - 1] == s'
  }

  /** From `s` the system can come to `s'` by quiet steps. */
  ghost predicate Leads(s: State, s': State, faulty: bool) {
    exists states, actors :: Path(states, actors, faulty) && Joins(states, s, s')
  }

  lemma Here(s: State, faulty: bool)
    ensures Leads(s, s, faulty)
  {
    assert Path([s], [], faulty) && Joins([s], s, s);
  }

  /** One more step. */
  lemma On(o: State, s: State, s': State, who: Actor, faulty: bool)
    requires Leads(o, s, faulty) && Step(s, s', who, faulty) && Quiet(s, who)
    ensures Leads(o, s', faulty)
  {
    var states, actors :| Path(states, actors, faulty) && Joins(states, o, s);
    var states', actors' := states + [s'], actors + [who];
    forall i | 0 <= i < |actors'|
      ensures Step(states'[i], states'[i + 1], actors'[i], faulty) && Quiet(states'[i], actors'[i])
    {
      if i < |actors| {
        assert states'[i] == states[i] && states'[i + 1] == states[i + 1] && actors'[i] == actors[i];
      }
    }
    assert Path(states', actors', faulty) && Joins(states', o, s');
  }

  lemma ReachableOn(s: State, s': State, who: Actor, faulty: bool)
    requires Reachable(s, faulty) && Step(s, s', who, faulty)
    ensures Reachable(s', faulty)
  {
    var states, actors :| Run(states, actors, faulty) && Ends(states, s);
    var states', actors' := states + [s'], actors + [who];
    forall i | 0 <= i < |actors'| ensures Step(states'[i], states'[i + 1], actors'[i], faulty) {
      if i < |actors| {
        assert states'[i] == states[i] && states'[i + 1] == states[i + 1] && actors'[i] == actors[i];
      }
    }
    assert states'[0] == states[0];
    assert Run(states', actors', faulty) && Ends(states', s');
  }

  /** A path from an initial state is a run. */
  lemma FromInit(o: State, s: State, faulty: bool)
    requires Init(o) && Leads(o, s, faulty)
    ensures Reachable(s, faulty)
  {
    var states, actors :| Path(states, actors, faulty) && Joins(states, o, s);
    assert Run(states, actors, faulty) && Ends(states, s);
  }

  // ---------------------------------------------------------------- the queue

  /** A queue in order has a place for any task. */
  lemma Inserted(q: seq<Task>, t: Task, n: nat) returns (r: seq<Task>)
    requires ByPriority(q) && n <= |q| && forall j :: 0 <= j < n ==> q[j].priority <= t.priority
    ensures Enqueued(q, t, r)
    decreases |q| - n
  {
    if n < |q| && q[n].priority <= t.priority {
      r := Inserted(q, t, n + 1);
    } else {
      Placed(q, t, n);
      r := q[..n] + [t] + q[n..];
      assert q == q[..n] + q[n..];
    }
  }

  lemma {:induction false} Sorted(q: seq<Task>) returns (r: seq<Task>)
    ensures ByPriority(r) && multiset(r) == multiset(q)
  {
    if q == [] {
      r := [];
    } else {
      var tail := Sorted(q[1..]);
      r := Inserted(tail, q[0], 0);
      assert q == [q[0]] + q[1..];
    }
  }

  /** EnqueueTask always has an outcome. */
  lemma SomeQueue(q: seq<Task>, t: Task) returns (q': seq<Task>)
    ensures Enqueued(q, t, q')
  {
    var r := Sorted(q);
    q' := Inserted(r, t, 0);
  }
}
