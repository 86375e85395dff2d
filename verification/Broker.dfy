/**
 The event broker: one poll loop reads the store and fans each entry out to every
 subscriber with a non-blocking send.  Every method is one critical section of
 the broker's mutex; consumers receive from their channels at any time.
 */
module Broker {
  import opened Types
  import opened Store

  // ---------------------------------------------------------------- accounting on values

  /** Entries come in the order of their numbers. */
  ghost predicate Rising(s: seq<StreamEvent>) {
    forall i, j :: 0 <= i < j < |s| ==> s[i].seqNo < s[j].seqNo
  }

  /** Nothing was trimmed before it was read: the i-th entry fanned out is entry i + 1. */
  ghost predicate Dense(s: seq<StreamEvent>) {
    forall i :: 0 <= i < |s| ==> s[i].seqNo == i + 1
  }

  function CursorOf(fanned: seq<StreamEvent>): Cursor {
    if fanned == [] then Zero else Id(fanned[|fanned| - 1].seqNo)
  }

  function Position(fanned: seq<StreamEvent>): nat {
    if fanned == [] then 0 else fanned[|fanned| - 1].seqNo
  }

  /**
   A subscription's history and channel: `from` is how much had been fanned out when it
   joined, `placed` the indices of the entries its channel took; its consumer has
   received the first `received` of those and still finds `ch`.
   */
  datatype Feed = Feed(from: nat, placed: seq<nat>, dropped: nat, received: nat, ch: seq<StreamEvent>)

  /**
   Of the entries fanned out since index `from`, those at the indices `placed` went
   into the channel, in order and once each; the other `dropped` many did not.
   */
  ghost predicate Accounts(fanned: seq<StreamEvent>, f: Feed) {
    && f.from <= |fanned| && |f.placed| + f.dropped == |fanned| - f.from
    && (forall i :: 0 <= i < |f.placed| ==> f.from <= f.placed[i] < |fanned|)
    && (forall i, j :: 0 <= i < j < |f.placed| ==> f.placed[i] < f.placed[j])
    && f.received + |f.ch| == |f.placed|
    && (forall i :: 0 <= i < |f.ch| ==> f.ch[i] == fanned[f.placed[f.received + i]])
  }

  /** The non-blocking send of the entry at index `at`. */
  function Fed(f: Feed, se: StreamEvent, at: nat, bufSize: nat): Feed {
    if |f.ch| < bufSize then f.(ch := f.ch + [se], placed := f.placed + [at]) else f.(dropped := f.dropped + 1)
  }

  function Drained(f: Feed): Feed {
    if f.ch == [] then f else f.(ch := f.ch[1..], received := f.received + 1)
  }

  lemma PlacedAccounts(fanned: seq<StreamEvent>, f: Feed, se: StreamEvent)
    requires Accounts(fanned, f)
    ensures Accounts(fanned + [se], f.(ch := f.ch + [se], placed := f.placed + [|fanned|]))
  {
    var f' := f.(ch := f.ch + [se], placed := f.placed + [|fanned|]);
    forall i | 0 <= i < |f'.ch| ensures f'.ch[i] == (fanned + [se])[f'.placed[f'.received + i]] {
      if i < |f.ch| {
        assert f.ch[i] == fanned[f.placed[f.received + i]];
      }
    }
  }

  lemma DroppedAccounts(fanned: seq<StreamEvent>, f: Feed, se: StreamEvent)
    requires Accounts(fanned, f)
    ensures Accounts(fanned + [se], f.(dropped := f.dropped + 1))
  {
  }

  /** One more entry is placed or counted as dropped. */
  lemma FedAccounts(fanned: seq<StreamEvent>, f: Feed, se: StreamEvent, bufSize: nat)
    requires Accounts(fanned, f)
    ensures Accounts(fanned + [se], Fed(f, se, |fanned|, bufSize))
  {
    if |f.ch| < bufSize {
      PlacedAccounts(fanned, f, se);
    } else {
      DroppedAccounts(fanned, f, se);
    }
  }

  lemma DrainedAccounts(fanned: seq<StreamEvent>, f: Feed)
    requires Accounts(fanned, f)
    ensures Accounts(fanned, Drained(f))
  {
    var f' := Drained(f);
    forall i | 0 <= i < |f'.ch| ensures f'.ch[i] == fanned[f'.placed[f'.received + i]] {
      if f.ch != [] {
        assert f.ch[i + 1] == fanned[f.placed[f.received + (i + 1)]];
      }
    }
  }

  /**
   On an untrimmed log the numbers placed are increasing and lie between the cut and
   the cursor, and placed plus dropped is the length of that interval.
   */
  lemma PlacedPlusDropped(fanned: seq<StreamEvent>, f: Feed)
    requires Dense(fanned) && Accounts(fanned, f)
    ensures Position(fanned[..f.from]) == f.from && Position(fanned) == |fanned|
    ensures |f.placed| + f.dropped == Position(fanned) - Position(fanned[..f.from])
    ensures forall i :: 0 <= i < |f.placed| ==>
              Position(fanned[..f.from]) < fanned[f.placed[i]].seqNo <= Position(fanned)
    ensures forall i, j :: 0 <= i < j < |f.placed| ==> fanned[f.placed[i]].seqNo < fanned[f.placed[j]].seqNo
    ensures forall i, j :: 0 <= i < j < |f.ch| ==> f.ch[i].seqNo < f.ch[j].seqNo
  {
    forall i, j | 0 <= i < j < |f.ch| ensures f.ch[i].seqNo < f.ch[j].seqNo {
      assert f.placed[f.received + i] < f.placed[f.received + j];
    }
  }

  lemma RisingGrows(fanned: seq<StreamEvent>, more: seq<StreamEvent>)
    requires Rising(fanned) && Rising(more)
    requires more != [] ==> more[0].seqNo > Position(fanned)
    ensures Rising(fanned + more)
  {
    var all := fanned + more;
    forall i, j | 0 <= i < j < |all| ensures all[i].seqNo < all[j].seqNo {
      if i < |fanned| <= j {
        assert all[i].seqNo <= Position(fanned) < more[0].seqNo <= more[j - |fanned|].seqNo;
      }
    }
  }

  /** What a read of the store returns: the next few entries above the lower bound. */
  lemma ReadIsConsecutive(entries: seq<StreamEvent>, newest: nat, last: nat, batch: int)
    requires Contiguous(entries, newest)
    ensures var more := Take(After(entries, last), batch);
            var first := newest - |entries|;
            forall i :: 0 <= i < |more| ==> more[i].seqNo == (if last > first then last else first) + 1 + i
  {
    AfterIsSuffix(entries, newest, last);
  }

  /** A read adds increasing numbers above the cursor, and leaves no gap if nothing is trimmed. */
  lemma ReadIsNext(entries: seq<StreamEvent>, newest: nat, fanned: seq<StreamEvent>, more: seq<StreamEvent>, batch: int)
    requires Contiguous(entries, newest) && Rising(fanned)
    requires more == Take(After(entries, Position(fanned)), batch)
    ensures Rising(fanned + more)
    ensures |entries| == newest && Dense(fanned) ==> Dense(fanned + more)
  {
    ReadIsConsecutive(entries, newest, Position(fanned), batch);
    RisingGrows(fanned, more);
  }

  /** A send drops its entry exactly where the channel is full, and otherwise puts it last. */
  lemma DropsIffFull(f: Feed, se: StreamEvent, at: nat, bufSize: nat)
    ensures var f' := Fed(f, se, at, bufSize);
            && (f'.dropped > f.dropped <==> |f.ch| >= bufSize)
            && (|f.ch| >= bufSize ==> f' == f.(dropped := f.dropped + 1))
            && (|f.ch| < bufSize ==> f'.ch == f.ch + [se] && f'.placed == f.placed + [at])
            && (|f.ch| <= bufSize ==> |f'.ch| <= bufSize)
  {
  }

  /** The indices n, …, n + k - 1. */
  function Next(n: nat, k: nat): seq<nat> {
    seq(k, i => n + i)
  }

  /**
   A subscription before and after `i` more entries, from index `n` on, were sent to it with
   room for all of them: none was dropped, and their indices are what was placed since.
   */
  predicate TookAll(f: Feed, f': Feed, n: nat, i: nat) {
    && f'.from == f.from && f'.dropped == f.dropped && f'.placed == f.placed + Next(n, i)
    && f'.received >= f.received && f'.received + |f'.ch| == f.received + |f.ch| + i
  }

  lemma TookOne(f: Feed, mid: Feed, f': Feed, n: nat, i: nat, se: StreamEvent, bufSize: nat)
    requires TookAll(f, mid, n, i) && |f.ch| + i < bufSize && f' == Fed(mid, se, n + i, bufSize)
    ensures TookAll(f, f', n, i + 1)
  {
    assert Next(n, i + 1) == Next(n, i) + [n + i];
  }

  /** Receiving in between changes nothing about that. */
  lemma TookThenDrained(f: Feed, mid: Feed, n: nat, i: nat)
    requires TookAll(f, mid, n, i)
    ensures TookAll(f, Drained(mid), n, i)
  {
  }

  /** In a batch every entry is above the cursor when its turn comes. */
  lemma BatchRises(fanned: seq<StreamEvent>, evs: seq<StreamEvent>, i: nat)
    requires Rising(fanned + evs) && i < |evs| && evs[i].seqNo > Position(fanned)
    ensures Position(fanned + evs[..i]) < evs[i].seqNo
  {
    assert evs[i] == (fanned + evs)[|fanned| + i];
    assert i > 0 ==> evs[i - 1] == (fanned + evs)[|fanned| + i - 1];
  }

  // ---------------------------------------------------------------- subscriptions

  /** A buffered channel and its drop counter.  `from`, `placed` and `received` are history. */
  class Subscription {
    var ch: seq<StreamEvent>
    var dropped: nat
    var closed: bool
    const bufSize: nat
    ghost const from: nat
    ghost var placed: seq<nat>
    ghost var received: nat

    ghost function View(): Feed
      reads this
    {
      Feed(from, placed, dropped, received, ch)
    }

    constructor (size: nat, ghost start: nat)
      ensures View() == Feed(start, [], 0, 0, []) && !closed && bufSize == size
    {
      ch, dropped, closed, bufSize := [], 0, false, size;
      from, placed, received := start, [], 0;
    }

    /** The non-blocking send.  Sending on a closed channel panics, hence the precondition. */
    method TrySend(se: StreamEvent, ghost at: nat)
      requires !closed
      modifies this`ch, this`dropped, this`placed
      ensures View() == Fed(old(View()), se, at, bufSize)
      ensures if |old(ch)| < bufSize then ch == old(ch) + [se] && dropped == old(dropped)
              else ch == old(ch) && dropped == old(dropped) + 1
    {
      if |ch| < bufSize {
        ch := ch + [se];
        placed := placed + [at];
      } else {
        dropped := dropped + 1;
      }
    }

    /** The consumer's receive: buffered entries first, then the end of a closed channel. */
    method Receive() returns (r: Option<StreamEvent>)
      modifies this`ch, this`received
      ensures View() == Drained(old(View()))
      ensures old(ch) == [] ==> r.None? && ch == [] && received == old(received)
      ensures old(ch) != [] ==> r.Some? && old(ch) == [r.value] + ch && received == old(received) + 1
    {
      if ch == [] {
        return None;
      }
      r := Some(ch[0]);
      ch := ch[1..];
      received := received + 1;
    }

    /** `close` panics on a closed channel, hence the precondition. */
    method Close()
      requires !closed
      modifies this`closed
      ensures closed
    {
      closed := true;
    }
  }

  // ---------------------------------------------------------------- the broker

  /** `fanned` is every entry fanned out so far, `known` every subscription ever handed out. */
  class EventBroker {
    var subs: set<Subscription>
    var cursor: Cursor
    var closed: bool
    const bufSize: nat
    ghost var fanned: seq<StreamEvent>
    ghost var known: set<Subscription>

    /** Exactly the registered subscriptions are open. */
    ghost predicate Valid()
      reads this, known
    {
      && subs <= known
      && (forall s :: s in known ==> (s in subs <==> !s.closed))
      && (forall s :: s in subs ==> s.bufSize == bufSize)
      && (closed ==> subs == {})
      && Rising(fanned)
      && cursor == CursorOf(fanned)
    }

    ghost predicate Accounted()
      reads this, subs
    {
      forall s :: s in subs ==> Accounts(fanned, s.View())
    }

    /** A size below one selects the default of 256. */
    constructor (size: int)
      ensures Valid() && Accounted() && fanned == [] && known == {} && !closed
      ensures bufSize == if size <= 0 then 256 else size
    {
      subs, cursor, closed, fanned, known := {}, Zero, false, [], {};
      bufSize := if size <= 0 then 256 else size;
    }

    /** Cursor snapshot and registration in one section; a closed broker hands out a closed channel. */
    method Subscribe() returns (sub: Subscription, cut: Cursor)
      requires Valid() && Accounted()
      modifies this`subs, this`known
      ensures Valid() && Accounted() && fresh(sub) && cut == cursor
      ensures known == old(known) + {sub}
      ensures subs == if closed then old(subs) else old(subs) + {sub}
      ensures sub.closed == closed && sub.View() == Feed(|fanned|, [], 0, 0, [])
    {
      sub := new Subscription(bufSize, |fanned|);
      known := known + {sub};
      cut := cursor;
      if closed {
        sub.Close();
        return;
      }
      subs := subs + {sub};
    }

    /** Idempotent: removal and close happen together, and only for a registered subscription. */
    method Unsubscribe(sub: Subscription)
      requires Valid() && sub in known
      modifies this`subs, sub`closed
      ensures Valid() && subs == old(subs) - {sub} && sub.closed
    {
      if sub in subs {
        subs := subs - {sub};
        sub.Close();
      }
    }

    /** Afterwards every subscription ever handed out is closed, and none is registered any more. */
    method Close()
      requires Valid()
      modifies this`subs, this`closed, subs`closed
      ensures Valid() && closed && subs == {}
      ensures forall s :: s in known ==> s.closed
    {
      closed := true;
      ghost var before := subs;
      while subs != {}
        invariant closed && subs <= before <= known
        invariant forall s :: s in known ==> (s in subs <==> !s.closed)
        decreases subs
      {
        var sub :| sub in subs;
        subs := subs - {sub};
        sub.Close();
      }
    }

    /** One entry reaches every registered subscription: placed if there is room, counted if not. */
    method FanOne(se: StreamEvent)
      requires Valid() && se.seqNo > Position(fanned)
      modifies this`cursor, this`fanned, subs`ch, subs`dropped, subs`placed
      ensures Valid() && fanned == old(fanned) + [se] && cursor == Id(se.seqNo)
      ensures forall s :: s in subs ==> s.View() == Fed(old(s.View()), se, |old(fanned)|, bufSize)
      ensures forall s :: s in subs ==>
                if |old(s.ch)| < bufSize then s.ch == old(s.ch) + [se] && s.dropped == old(s.dropped)
                else s.ch == old(s.ch) && s.dropped == old(s.dropped) + 1
    {
      cursor := Id(se.seqNo);
      var todo := subs;
      while todo != {}
        invariant todo <= subs && cursor == Id(se.seqNo) && fanned == old(fanned)
        invariant forall s :: s in todo ==> s.View() == old(s.View())
        invariant forall s :: s in subs - todo ==> s.View() == Fed(old(s.View()), se, |fanned|, bufSize)
        decreases todo
      {
        var sub :| sub in todo;
        sub.TrySend(se, |fanned|);
        todo := todo - {sub};
      }
      RisingGrows(fanned, [se]);
      fanned := fanned + [se];
    }

    /**
     Of a batch of `total` entries from index `n` on, every subscription that had room for
     the batch when its view was the one in `before` has taken the first `i`.
     */
    ghost predicate Keeping(before: map<Subscription, Feed>, n: nat, i: nat, total: nat)
      reads this, subs
    {
      && before.Keys == subs
      && forall s :: s in subs && |before[s].ch| + total <= bufSize ==> TookAll(before[s], s.View(), n, i)
    }

    /** One consumer receives. */
    method ConsumeOne(sub: Subscription, ghost before: map<Subscription, Feed>, ghost n: nat, ghost i: nat,
                      ghost total: nat)
      requires Accounted() && sub in subs && Keeping(before, n, i, total)
      modifies sub`ch, sub`received
      ensures Accounted() && Keeping(before, n, i, total)
    {
      DrainedAccounts(fanned, sub.View());
      if |before[sub].ch| + total <= bufSize {
        TookThenDrained(before[sub], sub.View(), n, i);
      }
      var _ := sub.Receive();
      forall s | s in subs
        ensures Accounts(fanned, s.View())
        ensures |before[s].ch| + total <= bufSize ==> TookAll(before[s], s.View(), n, i)
      {
        assert s.View() == if s == sub then Drained(old(s.View())) else old(s.View());
      }
    }

    /** Any number of consumers receive; nothing but channel contents changes. */
    method ConsumersRun(ghost before: map<Subscription, Feed>, ghost n: nat, ghost i: nat, ghost total: nat)
      requires Accounted() && Keeping(before, n, i, total)
      modifies subs`ch, subs`received
      ensures Accounted() && Keeping(before, n, i, total)
    {
      var steps: nat := *;
      while steps > 0 && subs != {}
        invariant Accounted() && Keeping(before, n, i, total)
        decreases steps
      {
        var sub :| sub in subs;
        ConsumeOne(sub, before, n, i, total);
        steps := steps - 1;
      }
    }

    /** One entry, and the accounts after it. */
    method FanAccounted(se: StreamEvent)
      requires Valid() && Accounted() && se.seqNo > Position(fanned)
      modifies this`cursor, this`fanned, subs`ch, subs`dropped, subs`placed
      ensures Valid() && Accounted() && fanned == old(fanned) + [se] && cursor == Id(se.seqNo)
      ensures forall s :: s in subs ==> s.View() == Fed(old(s.View()), se, |old(fanned)|, bufSize)
    {
      FanOne(se);
      forall s | s in subs ensures Accounts(fanned, s.View()) {
        FedAccounts(old(fanned), old(s.View()), se, bufSize);
      }
    }

    /** The next entry of a batch. */
    method FanNext(se: StreamEvent, ghost before: map<Subscription, Feed>, ghost n: nat, ghost i: nat, ghost total: nat)
      requires Valid() && Accounted() && se.seqNo > Position(fanned)
      requires Keeping(before, n, i, total) && i < total && |fanned| == n + i
      modifies this`cursor, this`fanned, subs`ch, subs`dropped, subs`placed
      ensures Valid() && Accounted() && fanned == old(fanned) + [se] && cursor == Id(se.seqNo)
      ensures Keeping(before, n, i + 1, total)
    {
      ghost var mid := map s | s in subs :: s.View();
      assert forall s :: s in subs && |before[s].ch| + total <= bufSize ==> TookAll(before[s], mid[s], n, i);
      FanAccounted(se);
      forall s | s in subs && |before[s].ch| + total <= bufSize ensures TookAll(before[s], s.View(), n, i + 1) {
        assert s.View() == Fed(mid[s], se, n + i, bufSize);
        TookOne(before[s], mid[s], s.View(), n, i, se, bufSize);
      }
    }

    /** The fan-out of a batch has come to its entry `i`. */
    ghost predicate InBatch(before: map<Subscription, Feed>, start: seq<StreamEvent>, evs: seq<StreamEvent>, i: nat)
      requires i <= |evs|
      reads this, known, subs
    {
      && Valid() && Accounted() && fanned == start + evs[..i]
      && Keeping(before, |start|, i, |evs|)
    }

    method FanStep(evs: seq<StreamEvent>, i: nat, ghost before: map<Subscription, Feed>, ghost start: seq<StreamEvent>)
      requires i < |evs| && InBatch(before, start, evs, i)
      requires Rising(start + evs) && evs[i].seqNo > Position(start)
      modifies this`cursor, this`fanned, subs`ch, subs`dropped, subs`placed, subs`received
      ensures InBatch(before, start, evs, i + 1)
    {
      BatchRises(start, evs, i);
      FanNext(evs[i], before, |start|, i, |evs|);
      ConsumersRun(before, |start|, i + 1, |evs|);
    }

    /** The loop over a batch. */
    method FanLoop(evs: seq<StreamEvent>, ghost before: map<Subscription, Feed>, ghost start: seq<StreamEvent>)
      requires InBatch(before, start, evs, 0) && Rising(start + evs)
      requires forall i :: 0 <= i < |evs| ==> evs[i].seqNo > Position(start)
      modifies this`cursor, this`fanned, subs`ch, subs`dropped, subs`placed, subs`received
      ensures InBatch(before, start, evs, |evs|)
    {
      var i := 0;
      while i < |evs|
        invariant 0 <= i <= |evs| && InBatch(before, start, evs, i)
      {
        FanStep(evs, i, before, start);
        i := i + 1;
      }
    }

    /**
     pollLoop's critical section, with consumers receiving between the sends.  Where the
     free slots suffice for the batch nothing is dropped, and what was received and what
     is in the channel grow by exactly the batch.
     */
    method FanOut(evs: seq<StreamEvent>)
      requires Valid() && Accounted() && Rising(fanned + evs)
      requires forall i :: 0 <= i < |evs| ==> evs[i].seqNo > Position(fanned)
      modifies this`cursor, this`fanned, subs`ch, subs`dropped, subs`placed, subs`received
      ensures Valid() && Accounted() && fanned == old(fanned) + evs
      ensures forall s :: s in subs && |old(s.ch)| + |evs| <= bufSize ==>
                && s.dropped == old(s.dropped) && s.placed == old(s.placed) + Next(|old(fanned)|, |evs|)
                && s.received + |s.ch| == old(s.received + |s.ch|) + |evs|
    {
      ghost var before, start := map s | s in subs :: s.View(), fanned;
      assert InBatch(before, start, evs, 0) by {
        assert start + evs[..0] == start;
      }
      FanLoop(evs, before, start);
      assert evs[..|evs|] == evs;
      forall s | s in subs && |old(s.ch)| + |evs| <= bufSize
        ensures s.dropped == old(s.dropped) && s.placed == old(s.placed) + Next(|start|, |evs|)
        ensures s.received + |s.ch| == old(s.received + |s.ch|) + |evs|
      {
        assert TookAll(before[s], s.View(), |start|, |evs|);
      }
    }

    /** Other handlers subscribe, unsubscribe and close in any order. */
    method OthersRun()
      requires Valid() && Accounted()
      modifies this`subs, this`known, this`closed, known`closed
      ensures Valid() && Accounted() && old(known) <= known && fresh(known - old(known))
      ensures old(closed) ==> closed
    {
      var steps: nat := *;
      while steps > 0
        invariant Valid() && Accounted() && old(known) <= known && fresh(known - old(known))
        invariant old(closed) ==> closed
        decreases steps
      {
        if * {
          var _, _ := Subscribe();
        } else if * {
          Close();
        } else if subs != {} {
          var sub :| sub in subs;
          Unsubscribe(sub);
        }
        steps := steps - 1;
      }
    }

    /**
     One tick of the poll loop.  The read happens outside the mutex, so others may
     subscribe, unsubscribe or close before the fan-out; the poll loop alone moves
     the cursor.
     */
    method Poll(store: MockStore, batch: int)
      requires Valid() && Accounted() && store.Valid()
      modifies this`subs, this`known, this`closed, this`cursor, this`fanned, known
      ensures Valid() && Accounted() && old(known) <= known && fresh(known - old(known))
      ensures fanned == old(fanned) + Take(After(store.streamEvents, Position(old(fanned))), batch)
      ensures |store.streamEvents| == store.streamSeq && Dense(old(fanned)) ==> Dense(fanned)
      ensures closed ==> forall s :: s in known ==> s.closed
    {
      var evs := store.ReadEvents(cursor, batch);
      ReadIsNext(store.streamEvents, store.streamSeq, fanned, evs, batch);
      ReadIsConsecutive(store.streamEvents, store.streamSeq, Position(fanned), batch);
      OthersRun();
      FanOut(evs);
    }
  }
}
