/**
 The completion registry: three maps under one mutex, and the channels that
 waiters block on.  A channel is a number; `closed` and `made` stand for the
 go runtime's knowledge of which channels exist and which are closed.
 */
module Completion {
  import opened Types

  type Channel = nat

  /** The registry's value: what every method reads and writes under `r.mu`. */
  datatype Registry = Registry(
    waiters: map<TaskId, Channel>,
    cleaned: map<TaskId, Time>,
    completed: map<TaskId, Time>,
    closed: set<Channel>,
    made: nat)

  const EMPTY := Registry(map[], map[], map[], {}, 0)

  /** Wait's critical section: forget tombstone and timestamp, then take or make a channel. */
  function Claimed(r: Registry, id: TaskId): Registry {
    var s := r.(cleaned := r.cleaned - {id}, completed := r.completed - {id});
    if id in r.waiters then s else s.(waiters := r.waiters[id := r.made], made := r.made + 1)
  }

  function Completed(r: Registry, id: TaskId, now: Time): Registry {
    if id in r.cleaned then r.(cleaned := r.cleaned - {id})
    else if id in r.waiters then r.(closed := r.closed + {r.waiters[id]})
    else r.(waiters := r.waiters[id := r.made], completed := r.completed[id := now],
            closed := r.closed + {r.made}, made := r.made + 1)
  }

  function Cleaned(r: Registry, id: TaskId, now: Time): Registry {
    r.(waiters := r.waiters - {id}, completed := r.completed - {id}, cleaned := r.cleaned[id := now])
  }

  predicate Expired(m: map<TaskId, Time>, id: TaskId, now: Time, ttl: Time) {
    id in m && now - m[id] >= ttl
  }

  function Swept(r: Registry, now: Time, ttl: Time): Registry {
    r.(cleaned := map id | id in r.cleaned && !Expired(r.cleaned, id, now, ttl) :: r.cleaned[id],
       completed := map id | id in r.completed && !Expired(r.completed, id, now, ttl) :: r.completed[id],
       waiters := map id | id in r.waiters && !Expired(r.completed, id, now, ttl) :: r.waiters[id])
  }

  /** Channels are made one by one, belong to one task each, and are closed only once made. */
  ghost predicate Sound(r: Registry) {
    && (forall id :: id in r.waiters ==> r.waiters[id] < r.made)
    && (forall i, j :: i in r.waiters && j in r.waiters && r.waiters[i] == r.waiters[j] ==> i == j)
    && (forall c :: c in r.closed ==> c < r.made)
    && (forall id :: id in r.cleaned ==> id !in r.waiters)
    && (forall id :: id in r.completed ==> id in r.waiters && r.waiters[id] in r.closed)
  }

  lemma ClaimedSound(r: Registry, id: TaskId)
    requires Sound(r)
    ensures Sound(Claimed(r, id))
  {
  }

  lemma CompletedSound(r: Registry, id: TaskId, now: Time)
    requires Sound(r)
    ensures Sound(Completed(r, id, now))
  {
  }

  lemma CleanedSound(r: Registry, id: TaskId, now: Time)
    requires Sound(r)
    ensures Sound(Cleaned(r, id, now))
  {
  }

  lemma SweptSound(r: Registry, now: Time, ttl: Time)
    requires Sound(r)
    ensures Sound(Swept(r, now, ttl))
  {
  }

  /** The registry object.  Each method is one critical section. */
  class CompletionRegistry {
    var waiters: map<TaskId, Channel>
    var cleaned: map<TaskId, Time>
    var completed: map<TaskId, Time>
    var closed: set<Channel>
    var made: nat
    const tombstoneTTL: Time

    ghost function View(): Registry
      reads this
    {
      Registry(waiters, cleaned, completed, closed, made)
    }

    constructor (ttl: Time)
      ensures View() == EMPTY && Sound(View()) && tombstoneTTL == ttl
    {
      waiters, cleaned, completed, closed, made := map[], map[], map[], {}, 0;
      tombstoneTTL := ttl;
    }

    method MakeChannel() returns (ch: Channel)
      modifies this`made
      ensures ch == old(made) && made == old(made) + 1
    {
      ch := made;
      made := made + 1;
    }

    /** `close(ch)` panics on a closed channel, hence the precondition. */
    method Close(ch: Channel)
      requires ch !in closed
      modifies this`closed
      ensures closed == old(closed) + {ch}
    {
      closed := closed + {ch};
    }

    /** The part of Wait before it blocks; it blocks until `ch` is closed. */
    method Claim(taskID: TaskId) returns (ch: Channel)
      requires Sound(View())
      modifies this
      ensures Sound(View()) && View() == Claimed(old(View()), taskID)
      ensures taskID in waiters && waiters[taskID] == ch
      ensures cleaned == old(cleaned) - {taskID} && completed == old(completed) - {taskID} && closed == old(closed)
      ensures if taskID in old(waiters) then waiters == old(waiters)
              else ch == old(made) && ch !in closed && waiters == old(waiters)[taskID := ch]
    {
      cleaned := cleaned - {taskID};
      completed := completed - {taskID};
      if taskID in waiters {
        ch := waiters[taskID];
      } else {
        ch := MakeChannel();
        waiters := waiters[taskID := ch];
      }
    }

    method Complete(taskID: TaskId, now: Time)
      requires Sound(View())
      modifies this
      ensures Sound(View()) && View() == Completed(old(View()), taskID, now)
      ensures cleaned == old(cleaned) - {taskID}
      ensures taskID in old(cleaned) ==>
                waiters == old(waiters) && completed == old(completed) && closed == old(closed)
      ensures taskID !in old(cleaned) ==>
                && taskID in waiters && waiters == old(waiters)[taskID := waiters[taskID]]
                && closed == old(closed) + {waiters[taskID]}
                && (taskID in old(waiters) ==>
                      waiters[taskID] == old(waiters)[taskID] && completed == old(completed))
                && (taskID !in old(waiters) ==>
                      waiters[taskID] == old(made) && completed == old(completed)[taskID := now])
    {
      if taskID in cleaned {
        cleaned := cleaned - {taskID};
        return;
      }
      var ch;
      if taskID in waiters {
        ch := waiters[taskID];
      } else {
        ch := MakeChannel();
        waiters := waiters[taskID := ch];
        completed := completed[taskID := now];
      }
      if ch !in closed {
        Close(ch);
      }
    }

    method Cleanup(taskID: TaskId, now: Time)
      requires Sound(View())
      modifies this
      ensures Sound(View()) && View() == Cleaned(old(View()), taskID, now)
      ensures waiters == old(waiters) - {taskID} && completed == old(completed) - {taskID}
      ensures cleaned == old(cleaned)[taskID := now] && closed == old(closed)
    {
      waiters := waiters - {taskID};
      completed := completed - {taskID};
      cleaned := cleaned[taskID := now];
    }

    method SweepOnce(now: Time)
      requires Sound(View())
      modifies this
      ensures Sound(View()) && View() == Swept(old(View()), now, tombstoneTTL)
      ensures forall id :: id in cleaned <==> id in old(cleaned) && now - old(cleaned)[id] < tombstoneTTL
      ensures forall id :: id in cleaned ==> cleaned[id] == old(cleaned)[id]
      ensures forall id :: id in completed <==> id in old(completed) && now - old(completed)[id] < tombstoneTTL
      ensures forall id :: id in completed ==> completed[id] == old(completed)[id]
      ensures forall id :: id in waiters <==>
                             id in old(waiters) && (id in old(completed) ==> now - old(completed)[id] < tombstoneTTL)
      ensures forall id :: id in waiters ==> waiters[id] == old(waiters)[id]
      ensures closed == old(closed) && made == old(made)
    {
      ghost var before := View();
      var todo := cleaned.Keys;
      while todo != {}
        invariant todo <= before.cleaned.Keys
        invariant View() == before.(cleaned := cleaned)
        invariant forall id :: id in cleaned <==>
                    id in before.cleaned && (id in todo || !Expired(before.cleaned, id, now, tombstoneTTL))
        invariant forall id :: id in cleaned ==> cleaned[id] == before.cleaned[id]
        decreases |todo|
      {
        var taskID :| taskID in todo;
        if now - cleaned[taskID] >= tombstoneTTL {
          cleaned := cleaned - {taskID};
        }
        todo := todo - {taskID};
      }
      assert cleaned == Swept(before, now, tombstoneTTL).cleaned;
      SweepCompleted(before, now);
      SweptSound(before, now, tombstoneTTL);
    }

    /** SweepOnce's second loop. */
    method SweepCompleted(ghost before: Registry, now: Time)
      requires View() == before.(cleaned := Swept(before, now, tombstoneTTL).cleaned)
      modifies this`completed, this`waiters
      ensures View() == Swept(before, now, tombstoneTTL)
    {
      ghost var expired := set id | id in before.completed && Expired(before.completed, id, now, tombstoneTTL);
      var todo := completed.Keys;
      while todo != {}
        invariant todo <= before.completed.Keys
        invariant completed == before.completed - (expired - todo)
        invariant waiters == before.waiters - (expired - todo)
        decreases todo
      {
        var taskID :| taskID in todo;
        assert taskID in before.completed && completed[taskID] == before.completed[taskID];
        ghost var gone := expired - todo;
        if now - completed[taskID] >= tombstoneTTL {
          completed := completed - {taskID};
          waiters := waiters - {taskID};
          assert expired - (todo - {taskID}) == gone + {taskID};
        } else {
          assert expired - (todo - {taskID}) == gone;
        }
        todo := todo - {taskID};
      }
      assert expired - todo == expired;
      assert completed == Swept(before, now, tombstoneTTL).completed;
      assert waiters == Swept(before, now, tombstoneTTL).waiters;
    }
  }

  // ---------------------------------------------------------------- one task, call by call

  /**
   A Complete that arrives before the Wait is remembered exactly when the id carries
   no tombstone; a reused id loses that wakeup, because Cleanup leaves a tombstone
   after a normal completion too.
   */
  lemma CompleteBeforeWait(r: Registry, id: TaskId, now: Time)
    requires Sound(r)
    ensures var w := Claimed(Completed(r, id, now), id);
            w.waiters[id] in w.closed <==> id !in r.cleaned
  {
  }

  /**
   A sweep drops exactly the tombstones and the unclaimed completions that are a TTL old,
   the latter with their entries; whatever is younger, or claimed, stays as it is.
   */
  lemma SweepIsExact(r: Registry, now: Time, ttl: Time, id: TaskId)
    requires Sound(r)
    ensures var s := Swept(r, now, ttl);
            && (id in s.cleaned <==> id in r.cleaned && now - r.cleaned[id] < ttl)
            && (id in s.cleaned ==> s.cleaned[id] == r.cleaned[id])
            && (id in s.completed <==> id in r.completed && now - r.completed[id] < ttl)
            && (id in s.completed ==> s.completed[id] == r.completed[id])
            && (id in s.waiters <==> id in r.waiters && (id in r.completed ==> now - r.completed[id] < ttl))
            && (id in s.waiters ==> s.waiters[id] == r.waiters[id])
            && s.closed == r.closed && s.made == r.made
  {
  }

  /** A second waiter on one id is stranded by the first waiter's Cleanup: the next Complete misses its channel. */
  lemma SecondWaiterStranded(r: Registry, id: TaskId, now: Time, later: Time)
    requires Sound(r) && id !in r.waiters
    ensures var one := Claimed(r, id);
            var two := Claimed(one, id);
            var gone := Completed(Cleaned(two, id, now), id, later);
            two.waiters[id] == one.waiters[id] && two.waiters[id] !in gone.closed
  {
  }
}
