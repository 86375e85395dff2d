/**
 Tower floors: at most four desks each.  A spawn reserves a slot under one lock,
 runs the spawner outside it, and then commits or releases the slot; spawns and
 despawns interleave freely.
 */
module Floors {
  import opened Types

  const CAPACITY := 4
  const GROUND := 0

  /** A key of the floor map: a reservation token, or an agent id, which never looks like a token. */
  datatype Slot = Reservation(n: nat) | Agent(id: AgentId)

  // ---------------------------------------------------------------- counting

  ghost function On(floors: map<Slot, int>, f: int): set<Slot> {
    set k | k in floors && floors[k] == f
  }

  ghost predicate WithinCapacity(floors: map<Slot, int>) {
    forall f :: |On(floors, f)| <= CAPACITY
  }

  lemma SmallerSet<T>(a: set<T>, b: set<T>)
    requires a <= b
    ensures |a| <= |b|
  {
    assert b == a + (b - a);
  }

  /** Deleting an entry makes no floor fuller. */
  lemma DeleteKeepsCapacity(floors: map<Slot, int>, k: Slot)
    requires WithinCapacity(floors)
    ensures WithinCapacity(floors - {k})
  {
    forall f ensures |On(floors - {k}, f)| <= CAPACITY {
      SmallerSet(On(floors - {k}, f), On(floors, f));
    }
  }

  /** Adding an entry to a floor with room keeps every floor within capacity. */
  lemma AddKeepsCapacity(floors: map<Slot, int>, k: Slot, floor: int)
    requires WithinCapacity(floors) && |On(floors, floor)| < CAPACITY
    ensures WithinCapacity(floors[k := floor])
  {
    var after := floors[k := floor];
    forall f ensures |On(after, f)| <= CAPACITY {
      if f == floor {
        SmallerSet(On(after, f), On(floors, f) + {k});
      } else {
        SmallerSet(On(after, f), On(floors, f));
      }
    }
  }

  /** The entries on the floors 1, …, m. */
  ghost function OnUpTo(floors: map<Slot, int>, m: nat): set<Slot> {
    set k | k in floors && 1 <= floors[k] <= m
  }

  lemma {:induction false} FullFloorsAreMany(floors: map<Slot, int>, m: nat)
    requires forall f :: 1 <= f <= m ==> |On(floors, f)| >= CAPACITY
    ensures |OnUpTo(floors, m)| >= CAPACITY * m
  {
    if m > 0 {
      FullFloorsAreMany(floors, m - 1);
      assert OnUpTo(floors, m) == OnUpTo(floors, m - 1) + On(floors, m);
      assert OnUpTo(floors, m - 1) !! On(floors, m);
    }
  }

  /** The lowest floor above the ground with room, whatever lies above it. */
  ghost predicate LowestWithRoom(floors: map<Slot, int>, f: int) {
    && f > GROUND && |On(floors, f)| < CAPACITY
    && forall g :: GROUND < g < f ==> |On(floors, g)| >= CAPACITY
  }

  /** It is never higher than the number of recorded entries forces it to be. */
  lemma LowestIsLow(floors: map<Slot, int>, f: int)
    requires LowestWithRoom(floors, f)
    ensures f <= |floors| / CAPACITY + 1
  {
    FullFloorsAreMany(floors, f - 1);
    SmallerSet(OnUpTo(floors, f - 1), floors.Keys);
  }

  // ---------------------------------------------------------------- the registry

  /** The part of the bridge that tracks floors; every method is one critical section of its lock. */
  class FloorRegistry {
    var floors: map<Slot, int>
    var counter: nat

    ghost predicate Valid()
      reads this
    {
      WithinCapacity(floors) && forall n: nat :: Reservation(n) in floors ==> n <= counter
    }

    constructor ()
      ensures Valid() && floors == map[] && counter == 0
    {
      floors, counter := map[], 0;
      new;
      assert forall f :: On(floors, f) == {};
    }

    method CountOn(floor: int) returns (count: nat)
      ensures count == |On(floors, floor)|
    {
      count := 0;
      var todo := floors.Keys;
      ghost var seen: set<Slot> := {};
      while todo != {}
        invariant todo <= floors.Keys && count == |seen|
        invariant seen == set k | k in floors && k !in todo && floors[k] == floor
        decreases todo
      {
        var k :| k in todo;
        ghost var was := seen;
        todo := todo - {k};
        if floors[k] == floor {
          count := count + 1;
          assert k !in was;
          seen := was + {k};
        }
      }
      assert seen == On(floors, floor);
    }

    method Claim(floor: int) returns (token: Slot)
      requires Valid() && |On(floors, floor)| < CAPACITY
      modifies this
      ensures Valid() && counter == old(counter) + 1
      ensures token == Reservation(counter) && token !in old(floors)
      ensures floors == old(floors)[token := floor]
    {
      counter := counter + 1;
      token := Reservation(counter);
      AddKeepsCapacity(floors, token, floor);
      floors := floors[token := floor];
    }

    /** Checks and claims under one lock: a slot is handed out exactly if the floor has room. */
    method ReserveFloorSlot(floor: int) returns (token: Option<Slot>)
      requires Valid()
      modifies this
      ensures Valid()
      ensures token.Some? <==> |On(old(floors), floor)| < CAPACITY
      ensures token.Some? ==> token.value.Reservation? && token.value !in old(floors)
                              && floors == old(floors)[token.value := floor]
      ensures token.None? ==> floors == old(floors)
    {
      var count := CountOn(floor);
      if count >= CAPACITY {
        return None;
      }
      var claimed := Claim(floor);
      token := Some(claimed);
    }

    /** Empty `agentID`: the spawner produced nothing, and the slot is given back. */
    method CommitFloorReservation(token: Slot, agentID: AgentId, floor: int)
      requires Valid() && token in floors && floors[token] == floor
      modifies this`floors
      ensures Valid()
      ensures floors == if agentID == "" then old(floors) - {token}
                        else (old(floors) - {token})[Agent(agentID) := floor]
    {
      CommitKeepsCapacity(floors, token, agentID, floor);
      if agentID == "" {
        floors := floors - {token};
        return;
      }
      floors := floors - {token};
      floors := floors[Agent(agentID) := floor];
    }

    method ReleaseFloorReservation(token: Slot)
      requires Valid()
      modifies this`floors
      ensures Valid() && floors == old(floors) - {token}
    {
      DeleteKeepsCapacity(floors, token);
      floors := floors - {token};
    }

    /** The counting loop: entries per floor, and the highest floor in use. */
    method Tally() returns (counts: map<int, nat>, highest: int)
      ensures forall f :: (if f in counts then counts[f] else 0) == |On(floors, f)|
      ensures highest >= GROUND && forall k :: k in floors ==> floors[k] <= highest
    {
      counts, highest := map[], GROUND;
      var todo := floors.Keys;
      assert forall f :: On(floors - todo, f) == {};
      while todo != {}
        invariant todo <= floors.Keys && highest >= GROUND
        invariant forall f :: (if f in counts then counts[f] else 0) == |On(floors - todo, f)|
        invariant forall k :: k in floors && k !in todo ==> floors[k] <= highest
        decreases todo
      {
        var k :| k in todo;
        var f := floors[k];
        ghost var before := floors - todo;
        counts := counts[f := (if f in counts then counts[f] else 0) + 1];
        if f > highest {
          highest := f;
        }
        todo := todo - {k};
        CountedOne(before, floors - todo, k, f);
      }
      assert floors - todo == floors;
    }

    /** An omitted floor: the lowest one above the ground that has room. */
    method ReserveNextAvailableFloor() returns (floor: int, token: Slot)
      requires Valid()
      modifies this
      ensures Valid() && LowestWithRoom(old(floors), floor) && floor <= |old(floors)| / CAPACITY + 1
      ensures token.Reservation? && token !in old(floors) && floors == old(floors)[token := floor]
    {
      var counts, highest := Tally();
      floor := highest + 1;
      var f := 1;
      while f <= highest
        invariant 1 <= f <= highest + 1 && floor == highest + 1
        invariant forall g :: 1 <= g < f ==> |On(floors, g)| >= CAPACITY
      {
        if (if f in counts then counts[f] else 0) < CAPACITY {
          floor := f;
          break;
        }
        f := f + 1;
      }
      assert floor == highest + 1 ==> On(floors, floor) == {};
      LowestIsLow(floors, floor);
      token := Claim(floor);
    }

    /** Despawn forgets the agent's floor. */
    method Despawn(agentID: AgentId)
      requires Valid()
      modifies this`floors
      ensures Valid() && floors == old(floors) - {Agent(agentID)}
    {
      DeleteKeepsCapacity(floors, Agent(agentID));
      floors := floors - {Agent(agentID)};
    }
  }

  lemma CountedThere(before: map<Slot, int>, after: map<Slot, int>, k: Slot, f: int)
    requires k !in before && after == before[k := f]
    ensures |On(after, f)| == |On(before, f)| + 1
  {
    forall x ensures x in On(after, f) <==> x in On(before, f) + {k} {
    }
    assert On(after, f) == On(before, f) + {k};
  }

  lemma CountedElsewhere(before: map<Slot, int>, after: map<Slot, int>, k: Slot, f: int, g: int)
    requires k !in before && after == before[k := f] && g != f
    ensures |On(after, g)| == |On(before, g)|
  {
    forall x ensures x in On(after, g) <==> x in On(before, g) {
    }
    assert On(after, g) == On(before, g);
  }

  /** One more entry counts on its own floor only. */
  lemma CountedOne(before: map<Slot, int>, after: map<Slot, int>, k: Slot, f: int)
    requires k !in before && after == before[k := f]
    ensures forall g :: |On(after, g)| == |On(before, g)| + (if g == f then 1 else 0)
  {
    forall g ensures |On(after, g)| == |On(before, g)| + (if g == f then 1 else 0) {
      if g == f {
        CountedThere(before, after, k, f);
      } else {
        CountedElsewhere(before, after, k, f, g);
      }
    }
  }

  /** The committed agent takes over its token's desk, and gives up any other it had. */
  lemma CommitKeepsCapacity(floors: map<Slot, int>, token: Slot, agentID: AgentId, floor: int)
    requires WithinCapacity(floors) && token in floors && floors[token] == floor
    ensures WithinCapacity(floors - {token})
    ensures WithinCapacity((floors - {token})[Agent(agentID) := floor])
  {
    DeleteKeepsCapacity(floors, token);
    var rest := floors - {token};
    assert |On(rest, floor)| < CAPACITY by {
      assert On(rest, floor) == On(floors, floor) - {token} && token in On(floors, floor);
    }
    AddKeepsCapacity(rest, Agent(agentID), floor);
  }

  // ---------------------------------------------------------------- concurrent spawns

  /** handleSpawnAgent with a slot in hand, while the spawner runs. */
  datatype Spawn = Spawning(token: Slot, floor: int)

  datatype State = State(floors: map<Slot, int>, counter: nat, spawns: map<nat, Spawn>)

  datatype Action =
    | ReserveAt(tid: nat, floor: int)
    | ReserveNext(tid: nat)
    | Succeed(tid: nat, agentID: AgentId)
    | Fail(tid: nat)
    | Despawn(agentID: AgentId)

  function Reserved(s: State, tid: nat, floor: int): State {
    var token := Reservation(s.counter + 1);
    State(s.floors[token := floor], s.counter + 1, s.spawns[tid := Spawning(token, floor)])
  }

  /** Each step is one of the registry's methods; the guards are the handler's. */
  ghost predicate Step(s: State, s': State, act: Action) {
    match act
    case ReserveAt(tid, floor) =>
      && tid !in s.spawns
      && s' == if floor <= GROUND || |On(s.floors, floor)| >= CAPACITY then s else Reserved(s, tid, floor)
    case ReserveNext(tid) =>
      && tid !in s.spawns
      && exists floor :: LowestWithRoom(s.floors, floor) && s' == Reserved(s, tid, floor)
    case Succeed(tid, agentID) =>
      && tid in s.spawns
      && var p := s.spawns[tid];
         var rest := s.floors - {p.token};
         s' == s.(floors := if agentID == "" then rest else rest[Agent(agentID) := p.floor], spawns := s.spawns - {tid})
    case Fail(tid) =>
      && tid in s.spawns && s' == s.(floors := s.floors - {s.spawns[tid].token}, spawns := s.spawns - {tid})
    case Despawn(agentID) =>
      s' == s.(floors := s.floors - {Agent(agentID)})
  }

  /** A spawn gets its slot exactly if the floor it asks for is above the ground and has room. */
  lemma SlotIffRoom(s: State, s': State, tid: nat, floor: int)
    requires Step(s, s', ReserveAt(tid, floor))
    ensures tid in s'.spawns <==> floor > 0 && |On(s.floors, floor)| < 4
    ensures tid in s'.spawns ==>
              && s'.spawns[tid].floor == floor && s'.spawns[tid].token.Reservation?
              && s'.floors == s.floors[s'.spawns[tid].token := floor]
    ensures tid !in s'.spawns ==> s' == s
  {
  }

  ghost predicate Run(states: seq<State>, acts: seq<Action>) {
    && |states| == |acts| + 1
    && states[0] == State(map[], 0, map[])
    && forall i :: 0 <= i < |acts| ==> Step(states[i], states[i + 1], acts[i])
  }

  ghost predicate HoldsToken(s: State, t: nat)
    requires t in s.spawns
  {
    var p := s.spawns[t];
    p.token.Reservation? && p.token.n <= s.counter && p.token in s.floors && s.floors[p.token] == p.floor
  }

  ghost predicate Claimed(s: State, n: nat) {
    exists t :: t in s.spawns && s.spawns[t].token == Reservation(n)
  }

  /** Every reservation in the map belongs to exactly one running spawn, and the other way round. */
  ghost predicate Owned(s: State) {
    && (forall t :: t in s.spawns ==> HoldsToken(s, t))
    && (forall t, u :: t in s.spawns && u in s.spawns && s.spawns[t].token == s.spawns[u].token ==> t == u)
    && (forall n: nat :: Reservation(n) in s.floors ==> Claimed(s, n))
  }

  ghost predicate Inv(s: State) {
    && WithinCapacity(s.floors)
    && (forall k :: k in s.floors ==> s.floors[k] > GROUND)
    && Owned(s)
  }

  lemma HoldsStep(s: State, s': State, act: Action, t: nat)
    requires Step(s, s', act) && t in s'.spawns
    requires forall u :: u in s.spawns ==> HoldsToken(s, u)
    requires forall t, u :: t in s.spawns && u in s.spawns && s.spawns[t].token == s.spawns[u].token ==> t == u
    ensures HoldsToken(s', t)
    ensures t !in s.spawns ==>
              (act.ReserveAt? || act.ReserveNext?) && t == act.tid && s'.spawns[t].token == Reservation(s.counter + 1)
    ensures t in s.spawns ==> s'.spawns[t] == s.spawns[t]
  {
    assert t in s.spawns ==> HoldsToken(s, t);
  }

  lemma ClaimedStep(s: State, s': State, act: Action, n: nat)
    requires Step(s, s', act) && Reservation(n) in s'.floors
    requires Reservation(n) in s.floors ==> Claimed(s, n)
    ensures Claimed(s', n)
  {
    if Reservation(n) in s.floors {
      var t :| t in s.spawns && s.spawns[t].token == Reservation(n);
      assert t in s'.spawns && s'.spawns[t].token == Reservation(n);
    } else {
      assert s'.spawns[act.tid].token == Reservation(n);
    }
  }

  lemma OwnedStep(s: State, s': State, act: Action)
    requires Owned(s) && Step(s, s', act)
    ensures Owned(s')
  {
    forall t | t in s'.spawns ensures HoldsToken(s', t) {
      HoldsStep(s, s', act, t);
    }
    forall t, u | t in s'.spawns && u in s'.spawns && s'.spawns[t].token == s'.spawns[u].token ensures t == u {
      HoldsStep(s, s', act, t);
      HoldsStep(s, s', act, u);
      assert t in s.spawns ==> HoldsToken(s, t);
      assert u in s.spawns ==> HoldsToken(s, u);
    }
    forall n: nat | Reservation(n) in s'.floors ensures Claimed(s', n) {
      ClaimedStep(s, s', act, n);
    }
  }

  lemma CapacityStep(s: State, s': State, act: Action)
    requires Inv(s) && Step(s, s', act)
    ensures WithinCapacity(s'.floors) && forall k :: k in s'.floors ==> s'.floors[k] > GROUND
  {
    match act
    case ReserveAt(tid, floor) =>
      if floor > GROUND && |On(s.floors, floor)| < CAPACITY {
        AddKeepsCapacity(s.floors, Reservation(s.counter + 1), floor);
      }
    case ReserveNext(tid) =>
      var floor :| LowestWithRoom(s.floors, floor) && s' == Reserved(s, tid, floor);
      AddKeepsCapacity(s.floors, Reservation(s.counter + 1), floor);
    case Succeed(tid, agentID) => CommitKeepsCapacity(s.floors, s.spawns[tid].token, agentID, s.spawns[tid].floor);
    case Fail(tid) => DeleteKeepsCapacity(s.floors, s.spawns[tid].token);
    case Despawn(agentID) => DeleteKeepsCapacity(s.floors, Agent(agentID));
  }

  lemma {:induction false} RunInv(states: seq<State>, acts: seq<Action>, n: nat)
    requires Run(states, acts) && n < |states|
    ensures Inv(states[n])
  {
    if n == 0 {
      assert forall f :: On(states[0].floors, f) == {};
    } else {
      RunInv(states, acts, n - 1);
      OwnedStep(states[n - 1], states[n], acts[n - 1]);
      CapacityStep(states[n - 1], states[n], acts[n - 1]);
    }
  }

  /** No interleaving ever puts more than four entries on a floor, or any on the ground floor. */
  lemma NeverOverfull(states: seq<State>, acts: seq<Action>, n: nat, f: int)
    requires Run(states, acts) && n < |states|
    ensures |On(states[n].floors, f)| <= CAPACITY
    ensures f <= GROUND ==> On(states[n].floors, f) == {}
  {
    RunInv(states, acts, n);
  }

  /** No reservation outlives its spawn: once no spawner runs, only agents take up desks. */
  lemma NoSlotLeaks(states: seq<State>, acts: seq<Action>, n: nat)
    requires Run(states, acts) && n < |states|
    ensures forall k :: k in states[n].floors && k.Reservation? ==>
              exists t :: t in states[n].spawns && states[n].spawns[t].token == k
    ensures states[n].spawns == map[] ==> forall k :: k in states[n].floors ==> k.Agent?
  {
    RunInv(states, acts, n);
    forall k | k in states[n].floors && k.Reservation?
      ensures exists t :: t in states[n].spawns && states[n].spawns[t].token == k
    {
      assert k == Reservation(k.n);
    }
  }

  /** A running spawn keeps the floor it was promised until it commits, and commits it to its agent. */
  lemma PromiseKept(states: seq<State>, acts: seq<Action>, n: nat, tid: nat, agentID: AgentId)
    requires Run(states, acts) && n < |acts|
    requires acts[n] == Succeed(tid, agentID) && agentID != ""
    ensures tid in states[n].spawns
    ensures Agent(agentID) in states[n + 1].floors
    ensures states[n + 1].floors[Agent(agentID)] == states[n].spawns[tid].floor
    ensures var floor := states[n].spawns[tid].floor;
            |On(states[n + 1].floors, floor)| <= |On(states[n].floors, floor)|
  {
    RunInv(states, acts, n);
    assert Step(states[n], states[n + 1], acts[n]);
    var s, p := states[n], states[n].spawns[tid];
    var before := On(s.floors, p.floor);
    assert p.token in before;
    SmallerSet(On(states[n + 1].floors, p.floor), (before - {p.token}) + {Agent(agentID)});
  }
}
