/**
 Waiters, completers and the sweeper interleaved.  Each critical section of the
 registry is one step; a waiter blocks between its claim and its wake-up.  Task
 ids have at most one outstanding Wait.
 */
module CompletionRuns {
  import opened Types
  import opened Completion

  /** BlockingSubmitter's use of the registry: Wait, then Cleanup. */
  datatype Waiter =
    | Entering(id: TaskId)
    | Blocked(id: TaskId, ch: Channel)
    | Returned(id: TaskId, ok: bool)

  /** `lastUse` and `calls` are history: when each id was last touched, and which ids Complete was called with. */
  datatype State = State(reg: Registry, now: Time, ttl: Time, waits: map<nat, Waiter>,
                         lastUse: map<TaskId, Time>, calls: set<TaskId>)

  datatype Action =
    | Enter(tid: nat, id: TaskId)
    | Claim(tid: nat)
    | Wake(tid: nat)
    | Cancel(tid: nat)
    | Cleanup(tid: nat)
    | Complete(id: TaskId)
    | Sweep
    | Tick(to: Time)

  predicate Enabled(s: State, act: Action) {
    match act
    case Enter(tid, id) => tid !in s.waits && forall t :: t in s.waits ==> s.waits[t].id != id
    case Claim(tid) => tid in s.waits && s.waits[tid].Entering?
    case Wake(tid) => tid in s.waits && s.waits[tid].Blocked? && s.waits[tid].ch in s.reg.closed
    case Cancel(tid) => tid in s.waits && s.waits[tid].Blocked?
    case Cleanup(tid) => tid in s.waits && s.waits[tid].Returned?
    case Tick(to) => s.now <= to
    case _ => true
  }

  function Touch(s: State, id: TaskId): State {
    s.(lastUse := s.lastUse[id := s.now])
  }

  function Next(s: State, act: Action): State
    requires Enabled(s, act)
  {
    match act
    case Enter(tid, id) => s.(waits := s.waits[tid := Entering(id)])
    case Claim(tid) =>
      var id := s.waits[tid].id;
      var r := Claimed(s.reg, id);
      Touch(s, id).(reg := r, waits := s.waits[tid := Blocked(id, r.waiters[id])])
    case Wake(tid) => s.(waits := s.waits[tid := Returned(s.waits[tid].id, true)])
    case Cancel(tid) => s.(waits := s.waits[tid := Returned(s.waits[tid].id, false)])
    case Cleanup(tid) =>
      var id := s.waits[tid].id;
      Touch(s, id).(reg := Cleaned(s.reg, id, s.now), waits := s.waits - {tid})
    case Complete(id) =>
      Touch(s, id).(reg := Completed(s.reg, id, s.now), calls := s.calls + {id})
    case Sweep => s.(reg := Swept(s.reg, s.now, s.ttl))
    case Tick(to) => s.(now := to)
  }

  predicate Init(s: State) {
    s.reg == EMPTY && s.waits == map[] && s.lastUse == map[] && s.calls == {}
  }

  /** The waiter has claimed its entry and not cleaned it up. */
  predicate Owns(w: Waiter, id: TaskId) {
    !w.Entering? && w.id == id
  }

  predicate Owned(s: State, id: TaskId) {
    exists t :: t in s.waits && Owns(s.waits[t], id)
  }

  // ---------------------------------------------------------------- the invariant

  ghost predicate OneWaiter(s: State) {
    forall t, u :: t in s.waits && u in s.waits && s.waits[t].id == s.waits[u].id ==> t == u
  }

  /** A claimed entry is in the map under the very channel its waiter blocks on, and no sweep may take it. */
  predicate Claims(s: State, w: Waiter) {
    && (!w.Entering? ==> w.id in s.reg.waiters && w.id !in s.reg.completed)
    && (w.Blocked? ==> s.reg.waiters[w.id] == w.ch)
    && (w.Returned? && w.ok ==> w.id in s.calls)
  }

  /** An entry nobody claimed is a timestamped completion. */
  ghost predicate Accounted(s: State) {
    && (forall id :: id in s.reg.waiters ==> id in s.reg.completed || Owned(s, id))
    && (forall id :: id in s.reg.waiters && s.reg.waiters[id] in s.reg.closed ==> id in s.calls)
    && (forall id :: id in s.reg.cleaned ==> id in s.lastUse && s.reg.cleaned[id] <= s.lastUse[id])
    && (forall id :: id in s.reg.completed ==> id in s.lastUse && s.reg.completed[id] <= s.lastUse[id])
  }

  ghost predicate Inv(s: State) {
    && Sound(s.reg)
    && OneWaiter(s)
    && (forall t :: t in s.waits ==> Claims(s, s.waits[t]))
    && Accounted(s)
    && (forall id :: id in s.lastUse ==> s.lastUse[id] <= s.now)
  }

  lemma SoundStep(s: State, act: Action)
    requires Sound(s.reg) && OneWaiter(s) && Enabled(s, act)
    ensures Sound(Next(s, act).reg) && OneWaiter(Next(s, act))
  {
    match act
    case Claim(tid) => ClaimedSound(s.reg, s.waits[tid].id);
    case Cleanup(tid) => CleanedSound(s.reg, s.waits[tid].id, s.now);
    case Complete(id) => CompletedSound(s.reg, id, s.now);
    case Sweep => SweptSound(s.reg, s.now, s.ttl);
    case _ =>
  }

  /** One waiter's claim survives every step, its own included. */
  lemma ClaimsStep(s: State, act: Action, t: nat)
    requires Sound(s.reg) && OneWaiter(s) && Enabled(s, act)
    requires t in s.waits ==> Claims(s, s.waits[t])
    requires forall id :: id in s.reg.waiters && s.reg.waiters[id] in s.reg.closed ==> id in s.calls
    requires t in Next(s, act).waits
    ensures Claims(Next(s, act), Next(s, act).waits[t])
  {
  }

  /** An entry that stays, or appears, in the map has an owner or a timestamp. */
  lemma OwnedStep(s: State, act: Action, id: TaskId)
    requires OneWaiter(s) && Enabled(s, act) && id in Next(s, act).reg.waiters
    requires id in s.reg.waiters ==> id in s.reg.completed || Owned(s, id)
    ensures id in Next(s, act).reg.completed || Owned(Next(s, act), id)
  {
    var s' := Next(s, act);
    if act.Claim? && s.waits[act.tid].id == id {
      assert Owns(s'.waits[act.tid], id);
    } else if id in s.reg.waiters && id !in s.reg.completed {
      var t :| t in s.waits && Owns(s.waits[t], id);
      assert t in s'.waits && Owns(s'.waits[t], id);
    }
  }

  /** Only Complete closes channels. */
  lemma ClosedStep(s: State, act: Action, id: TaskId)
    requires Sound(s.reg) && Enabled(s, act)
    requires id in s.reg.waiters && s.reg.waiters[id] in s.reg.closed ==> id in s.calls
    requires id in Next(s, act).reg.waiters && Next(s, act).reg.waiters[id] in Next(s, act).reg.closed
    ensures id in Next(s, act).calls
  {
  }

  lemma StampsStep(s: State, act: Action)
    requires Accounted(s) && Enabled(s, act)
    requires forall id :: id in s.lastUse ==> s.lastUse[id] <= s.now
    ensures var s' := Next(s, act);
            && (forall id :: id in s'.reg.cleaned ==> id in s'.lastUse && s'.reg.cleaned[id] <= s'.lastUse[id])
            && (forall id :: id in s'.reg.completed ==> id in s'.lastUse && s'.reg.completed[id] <= s'.lastUse[id])
            && (forall id :: id in s'.lastUse ==> s'.lastUse[id] <= s'.now)
  {
  }

  lemma StepInv(s: State, act: Action)
    requires Inv(s) && Enabled(s, act)
    ensures Inv(Next(s, act))
  {
    SoundStep(s, act);
    StampsStep(s, act);
    var s' := Next(s, act);
    forall t | t in s'.waits ensures Claims(s', s'.waits[t]) {
      ClaimsStep(s, act, t);
    }
    forall id | id in s'.reg.waiters
      ensures id in s'.reg.completed || Owned(s', id)
      ensures s'.reg.waiters[id] in s'.reg.closed ==> id in s'.calls
    {
      OwnedStep(s, act, id);
      if s'.reg.waiters[id] in s'.reg.closed {
        ClosedStep(s, act, id);
      }
    }
  }

  /** A finite run of the registry and its users. */
  ghost predicate Run(states: seq<State>, acts: seq<Action>) {
    && |states| == |acts| + 1
    && Init(states[0])
    && forall i :: 0 <= i < |acts| ==> Enabled(states[i], acts[i]) && states[i + 1] == Next(states[i], acts[i])
  }

  lemma {:induction false} RunInv(states: seq<State>, acts: seq<Action>, n: nat)
    requires Run(states, acts) && n < |states|
    ensures Inv(states[n])
  {
    if n > 0 {
      RunInv(states, acts, n - 1);
      StepInv(states[n - 1], acts[n - 1]);
    }
  }

  // ---------------------------------------------------------------- the theorems

  /** A blocked Wait is never lost: the next Complete on its id closes the channel it blocks on. */
  lemma NoLostWakeup(states: seq<State>, acts: seq<Action>, n: nat, tid: nat)
    requires Run(states, acts) && n < |states|
    requires tid in states[n].waits && states[n].waits[tid].Blocked?
    ensures var w := states[n].waits[tid];
            && w.id in states[n].reg.waiters && states[n].reg.waiters[w.id] == w.ch && w.id !in states[n].reg.cleaned
            && Enabled(Next(states[n], Complete(w.id)), Wake(tid))
  {
    RunInv(states, acts, n);
    assert Claims(states[n], states[n].waits[tid]);
  }

  /** Wait returns nil only after Complete was called with its id. */
  lemma WakeupsAreCompletions(states: seq<State>, acts: seq<Action>, n: nat, tid: nat)
    requires Run(states, acts) && n < |states|
    requires tid in states[n].waits && states[n].waits[tid].Returned? && states[n].waits[tid].ok
    ensures states[n].waits[tid].id in states[n].calls
  {
    RunInv(states, acts, n);
    assert Claims(states[n], states[n].waits[tid]);
  }

  /** No sweep ever removes an entry that a Wait has claimed. */
  lemma SweepSparesClaims(states: seq<State>, acts: seq<Action>, n: nat, tid: nat)
    requires Run(states, acts) && n < |states|
    requires tid in states[n].waits && !states[n].waits[tid].Entering?
    ensures var w := states[n].waits[tid];
            var r := Next(states[n], Sweep).reg;
            w.id in states[n].reg.waiters && w.id in r.waiters && r.waiters[w.id] == states[n].reg.waiters[w.id]
  {
    RunInv(states, acts, n);
    assert Claims(states[n], states[n].waits[tid]);
  }

  /**
   The registry is bounded: once every Wait on an id has been cleaned up, a sweep a
   TTL after the id was last touched leaves it in none of the three maps.
   */
  lemma SweepForgets(states: seq<State>, acts: seq<Action>, n: nat, id: TaskId)
    requires Run(states, acts) && n < |states|
    requires !Owned(states[n], id)
    requires id in states[n].lastUse ==> states[n].now - states[n].lastUse[id] >= states[n].ttl
    ensures var r := Next(states[n], Sweep).reg; id !in r.waiters && id !in r.cleaned && id !in r.completed
  {
    RunInv(states, acts, n);
  }

  // ---------------------------------------------------------------- Complete before Wait

  /** A completion of `id` is remembered: the next Wait on it finds a closed channel. */
  predicate Remembered(r: Registry, id: TaskId) {
    id in r.waiters && r.waiters[id] in r.closed && id !in r.cleaned
  }

  /** No step makes the registry forget: no Cleanup of `id` and no sweep that finds it expired. */
  predicate Keeps(s: State, act: Action, id: TaskId) {
    && !(act.Cleanup? && act.tid in s.waits && s.waits[act.tid].id == id)
    && !(act.Sweep? && Expired(s.reg.completed, id, s.now, s.ttl))
  }

  lemma RememberedStep(s: State, act: Action, id: TaskId)
    requires Enabled(s, act) && Keeps(s, act, id) && Remembered(s.reg, id)
    ensures Remembered(Next(s, act).reg, id)
  {
  }

  lemma {:induction false} RememberedKept(states: seq<State>, acts: seq<Action>, m: nat, n: nat, id: TaskId)
    requires Run(states, acts) && m <= n < |states|
    requires Remembered(states[m].reg, id)
    requires forall i :: m <= i < n ==> Keeps(states[i], acts[i], id)
    ensures Remembered(states[n].reg, id)
  {
    if m < n {
      RememberedKept(states, acts, m, n - 1, id);
      RememberedStep(states[n - 1], acts[n - 1], id);
    }
  }

  /**
   If Complete runs on a fresh id before its Wait, the Wait still returns: its claim
   finds a closed channel whatever happened in between, short of an expiring sweep.
   */
  lemma EarlyCompleteIsKept(states: seq<State>, acts: seq<Action>, m: nat, n: nat, id: TaskId, tid: nat)
    requires Run(states, acts) && m < n < |acts|
    requires acts[m] == Complete(id) && id !in states[m].reg.cleaned
    requires acts[n] == Claim(tid) && states[n].waits[tid].id == id
    requires forall i :: m < i < n ==> Keeps(states[i], acts[i], id)
    ensures Enabled(states[n + 1], Wake(tid))
  {
    RunInv(states, acts, m);
    assert Remembered(states[m + 1].reg, id);
    RememberedKept(states, acts, m + 1, n, id);
  }

  lemma {:induction false} NotCompleted(states: seq<State>, acts: seq<Action>, m: nat, n: nat, id: TaskId)
    requires Run(states, acts) && m <= n < |states| && id !in states[m].reg.completed
    requires forall i :: m <= i < n ==> acts[i] != Complete(id)
    ensures id !in states[n].reg.completed
  {
    if m < n {
      NotCompleted(states, acts, m, n - 1, id);
    }
  }

  /** A Complete that meets a tombstone is lost: the next Wait on the id blocks, unless Complete comes once more. */
  lemma EarlyCompleteIsLost(states: seq<State>, acts: seq<Action>, m: nat, n: nat, id: TaskId, tid: nat)
    requires Run(states, acts) && m < n < |acts|
    requires acts[m] == Complete(id) && id in states[m].reg.cleaned
    requires acts[n] == Claim(tid) && states[n].waits[tid].id == id
    requires forall i :: m < i < n ==> acts[i] != Complete(id)
    ensures !Enabled(states[n + 1], Wake(tid))
  {
    RunInv(states, acts, m);
    NotCompleted(states, acts, m + 1, n, id);
    RunInv(states, acts, n);
    assert !Owned(states[n], id);
  }

  /** So the tombstone alone decides whether a Complete that comes before its Wait is remembered. */
  lemma EarlyCompleteIff(states: seq<State>, acts: seq<Action>, m: nat, n: nat, id: TaskId, tid: nat)
    requires Run(states, acts) && m < n < |acts|
    requires acts[m] == Complete(id) && acts[n] == Claim(tid) && states[n].waits[tid].id == id
    requires forall i :: m < i < n ==> Keeps(states[i], acts[i], id) && acts[i] != Complete(id)
    ensures Enabled(states[n + 1], Wake(tid)) <==> id !in states[m].reg.cleaned
  {
    if id in states[m].reg.cleaned {
      EarlyCompleteIsLost(states, acts, m, n, id, tid);
    } else {
      EarlyCompleteIsKept(states, acts, m, n, id, tid);
    }
  }

  lemma GoesOn(states: seq<State>, acts: seq<Action>, act: Action, s': State)
    requires Run(states, acts) && Enabled(states[|acts|], act) && s' == Next(states[|acts|], act)
    ensures Run(states + [s'], acts + [act])
  {
  }

  /** The registry after an id was waited for and completed once: it keeps a tombstone. */
  function UsedOnce(id: TaskId): State {
    State(Registry(map[], map[id := 0], map[], {0}, 1), 0, 0, map[], map[id := 0], {id})
  }

  lemma UsesOnce(id: TaskId) returns (states: seq<State>, acts: seq<Action>)
    ensures acts == [Enter(0, id), Claim(0), Complete(id), Wake(0), Cleanup(0)]
    ensures Run(states, acts) && states[5] == UsedOnce(id)
  {
    var s0 := State(EMPTY, 0, 0, map[], map[], {});
    var s1 := s0.(waits := map[0 := Entering(id)]);
    GoesOn([s0], [], Enter(0, id), s1);
    var s2 := s1.(reg := Registry(map[id := 0], map[], map[], {}, 1), waits := map[0 := Blocked(id, 0)],
                  lastUse := map[id := 0]);
    assert s2.reg == Claimed(s1.reg, id);
    GoesOn([s0, s1], [Enter(0, id)], Claim(0), s2);
    var s3 := s2.(reg := s2.reg.(closed := {0}), calls := {id});
    GoesOn([s0, s1, s2], [Enter(0, id), Claim(0)], Complete(id), s3);
    var s4 := s3.(waits := map[0 := Returned(id, true)]);
    GoesOn([s0, s1, s2, s3], [Enter(0, id), Claim(0), Complete(id)], Wake(0), s4);
    assert UsedOnce(id).reg == Cleaned(s4.reg, id, 0) && s4.waits - {0} == map[];
    acts := [Enter(0, id), Claim(0), Complete(id), Wake(0)];
    states := [s0, s1, s2, s3, s4];
    GoesOn(states, acts, Cleanup(0), UsedOnce(id));
    states, acts := states + [UsedOnce(id)], acts + [Cleanup(0)];
  }

  /** Used again, the id loses an early Complete: its second Wait blocks on a channel nobody has closed. */
  lemma ReusedIdIsStranded(id: TaskId) returns (states: seq<State>, acts: seq<Action>)
    ensures acts == [Enter(0, id), Claim(0), Complete(id), Wake(0), Cleanup(0), Complete(id), Enter(0, id), Claim(0)]
    ensures Run(states, acts)
    ensures states[8].waits == map[0 := Blocked(id, 1)] && !Enabled(states[8], Wake(0))
  {
    states, acts := UsesOnce(id);
    var s6 := UsedOnce(id).(reg := Registry(map[], map[], map[], {0}, 1));
    assert s6.reg == Completed(UsedOnce(id).reg, id, 0);
    GoesOn(states, acts, Complete(id), s6);
    states, acts := states + [s6], acts + [Complete(id)];
    var s7 := s6.(waits := map[0 := Entering(id)]);
    GoesOn(states, acts, Enter(0, id), s7);
    states, acts := states + [s7], acts + [Enter(0, id)];
    var s8 := s7.(reg := Registry(map[id := 1], map[], map[], {0}, 2), waits := map[0 := Blocked(id, 1)]);
    assert s8.reg == Claimed(s7.reg, id);
    GoesOn(states, acts, Claim(0), s8);
    states, acts := states + [s8], acts + [Claim(0)];
  }

  // ---------------------------------------------------------------- Complete after Cleanup

  /** Every Wait on the id is still before its claim. */
  ghost predicate Unclaimed(s: State, id: TaskId) {
    forall t :: t in s.waits && s.waits[t].id == id ==> s.waits[t].Entering?
  }

  /** A sweep runs at least one TTL after the time `stamp`. */
  predicate SweptAfter(s: State, act: Action, stamp: Time) {
    act.Sweep? && s.now - stamp >= s.ttl
  }

  /** Since the Cleanup at `stamp` the id has no entry, and has its tombstone unless a sweep took it. */
  predicate Laid(r: Registry, id: TaskId, stamp: Time, expired: bool) {
    && id !in r.waiters && id !in r.completed
    && (if expired then id !in r.cleaned else id in r.cleaned && r.cleaned[id] == stamp)
  }

  lemma LaidStep(s: State, act: Action, id: TaskId, stamp: Time, expired: bool)
    requires Sound(s.reg) && Enabled(s, act) && Unclaimed(s, id) && Laid(s.reg, id, stamp, expired)
    requires act != Complete(id) && !(act.Claim? && s.waits[act.tid].id == id)
    ensures Unclaimed(Next(s, act), id)
    ensures Laid(Next(s, act).reg, id, stamp, expired || SweptAfter(s, act, stamp))
  {
    if act.Sweep? {
      SweepIsExact(s.reg, s.now, s.ttl, id);
    }
  }

  /** Neither a Claim nor a Complete touches the id. */
  predicate LeavesId(s: State, act: Action, id: TaskId) {
    act != Complete(id) && !(act.Claim? && act.tid in s.waits && s.waits[act.tid].id == id)
  }

  /** Some sweep between the steps `m` and `n` comes a TTL or more after step `m`. */
  predicate Expires(states: seq<State>, acts: seq<Action>, m: nat, n: nat)
    requires m < n < |states| && |states| == |acts| + 1
  {
    n > m + 1 && (Expires(states, acts, m, n - 1) || SweptAfter(states[n - 1], acts[n - 1], states[m].now))
  }

  lemma {:induction false} ExpiresIff(states: seq<State>, acts: seq<Action>, m: nat, n: nat)
    requires m < n < |states| && |states| == |acts| + 1
    ensures !Expires(states, acts, m, n)
            <==> forall i :: m < i < n && acts[i].Sweep? ==> states[i].now - states[m].now < states[i].ttl
  {
    if n > m + 1 {
      ExpiresIff(states, acts, m, n - 1);
    }
  }

  lemma CleanupLays(states: seq<State>, acts: seq<Action>, m: nat, id: TaskId, tid: nat)
    requires Run(states, acts) && m < |acts| && acts[m] == Cleanup(tid) && states[m].waits[tid].id == id
    ensures Unclaimed(states[m + 1], id) && Laid(states[m + 1].reg, id, states[m].now, false)
  {
    RunInv(states, acts, m);
    assert states[m + 1] == Next(states[m], acts[m]);
  }

  lemma RunSound(states: seq<State>, acts: seq<Action>, n: nat)
    requires Run(states, acts) && 0 < n < |states|
    ensures Sound(states[n - 1].reg)
    ensures Enabled(states[n - 1], acts[n - 1]) && states[n] == Next(states[n - 1], acts[n - 1])
  {
    RunInv(states, acts, n - 1);
  }

  lemma LaidOn(states: seq<State>, acts: seq<Action>, n: nat, id: TaskId, stamp: Time, expired: bool)
    requires Run(states, acts) && 0 < n < |states| && LeavesId(states[n - 1], acts[n - 1], id)
    requires Unclaimed(states[n - 1], id) && Laid(states[n - 1].reg, id, stamp, expired)
    ensures Unclaimed(states[n], id)
    ensures Laid(states[n].reg, id, stamp, expired || SweptAfter(states[n - 1], acts[n - 1], stamp))
  {
    RunSound(states, acts, n);
    LaidStep(states[n - 1], acts[n - 1], id, stamp, expired);
  }

  lemma {:induction false} LaidKept(states: seq<State>, acts: seq<Action>, m: nat, n: nat, id: TaskId, tid: nat)
    requires Run(states, acts) && m < n < |states|
    requires acts[m] == Cleanup(tid) && states[m].waits[tid].id == id
    requires forall i :: m < i < n ==> LeavesId(states[i], acts[i], id)
    ensures Unclaimed(states[n], id) && Laid(states[n].reg, id, states[m].now, Expires(states, acts, m, n))
  {
    if n == m + 1 {
      CleanupLays(states, acts, m, id, tid);
    } else {
      LaidKept(states, acts, m, n - 1, id, tid);
      LaidOn(states, acts, n, id, states[m].now, Expires(states, acts, m, n - 1));
    }
  }

  /**
   What the tombstone is for: a Complete that comes after its Wait was cleaned up leaves the
   id in none of the three maps, whatever other ids do and however often a sweep runs, if
   and only if no sweep came a TTL or more after the Cleanup.
   */
  lemma LateCompleteLeavesNothing(states: seq<State>, acts: seq<Action>, m: nat, n: nat, id: TaskId, tid: nat)
    requires Run(states, acts) && m < n < |acts|
    requires acts[m] == Cleanup(tid) && states[m].waits[tid].id == id && acts[n] == Complete(id)
    requires forall i :: m < i < n ==> LeavesId(states[i], acts[i], id)
    ensures var r := states[n + 1].reg;
            (id !in r.waiters && id !in r.cleaned && id !in r.completed)
            <==> forall i :: m < i < n && acts[i].Sweep? ==> states[i].now - states[m].now < states[i].ttl
  {
    LaidKept(states, acts, m, n, id, tid);
    ExpiresIff(states, acts, m, n);
    assert states[n + 1] == Next(states[n], acts[n]);
  }
}
