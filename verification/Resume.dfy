/**
 One SSE connection against the broker: the backfill replays the store from the
 client's cursor to the broker's cut, and the live channel takes over.
 */
module Resume {
  import opened Types
  import opened Store
  import Broker

  // ---------------------------------------------------------------- positions

  /** The positions lo + 1, …, hi. */
  function Span(lo: int, hi: int): (s: seq<int>)
    ensures |s| == if hi > lo then hi - lo else 0
    ensures forall i :: 0 <= i < |s| ==> s[i] == lo + 1 + i
  {
    seq(if hi > lo then hi - lo else 0, i => lo + 1 + i)
  }

  lemma SpanGrows(lo: int, mid: int, hi: int)
    requires lo <= mid <= hi
    ensures Span(lo, mid) + Span(mid, hi) == Span(lo, hi)
  {
  }

  function Max(a: int, b: int): int {
    if a > b then a else b
  }

  function Min(a: int, b: int): int {
    if a < b then a else b
  }

  function CursorAt(n: nat): Cursor {
    if n == 0 then Zero else Id(n)
  }

  // ---------------------------------------------------------------- the system

  /** The poll loop: between ticks, with entries read but not yet fanned out, or inside the fan-out section. */
  datatype Poll = Idle | Holding(evs: seq<int>) | Sending(evs: seq<int>)

  /** handleSSE; `delivered` says whether the backfill wrote anything. */
  datatype Conn =
    | Absent
    | Backfilling(since: Cursor, cut: nat, last: Cursor)
    | Live(since: Cursor, cut: nat, delivered: bool, gate: Option<Cursor>)

  /**
   Publishing, polling, fan-out, backfill reads and live receives interleave freely.  Entry n
   of the log has the id Id(n); the first `base` entries were trimmed before the connection
   began.  `taken` is history: the position up to which it has received live entries.
   */
  datatype State = State(
    log: seq<Event>,
    base: nat,
    cursor: nat,
    poll: Poll,
    bufSize: nat,
    ch: seq<int>,
    dropped: nat,
    conn: Conn,
    out: seq<int>,
    taken: int)

  datatype Action =
    | Publish(e: Event)
    | PollRead(batch: nat)
    | PollLock
    | PollSend
    | PollUnlock
    | Connect(since: Cursor)
    | BackfillRead(batch: nat)
    | Receive

  /** ReadEvents seen through the numbers of the entries it returns. */
  function Read(s: State, last: Cursor, count: nat): seq<int> {
    match LowerBound(last)
    case None => []
    case Some(n) => Span(Max(n, s.base), Min(Max(n, s.base) + count, |s.log|))
  }

  predicate Enabled(s: State, act: Action) {
    match act
    case Publish(_) => true
    case PollRead(batch) => s.poll.Idle? && batch > 0
    case PollLock => s.poll.Holding?
    case PollSend => s.poll.Sending? && s.poll.evs != [] && s.poll.evs[0] > 0
    case PollUnlock => s.poll == Sending([])
    case Connect(_) => s.conn.Absent? && !s.poll.Sending?
    case BackfillRead(batch) => s.conn.Backfilling? && batch > 0
    case Receive => s.conn.Live? && s.ch != []
  }

  /** How many entries of a batch get written when the first `i` are not the cut. */
  function Writes(evs: seq<int>, i: nat, cut: nat): (n: nat)
    requires i <= |evs|
    ensures i <= n <= |evs|
    decreases |evs| - i
  {
    if i == |evs| then i else if evs[i] == cut then i + 1 else Writes(evs, i + 1, cut)
  }

  /** The entries of a batch that get written: up to and including the cut. */
  function UpToCut(evs: seq<int>, cut: nat): seq<int> {
    evs[..Writes(evs, 0, cut)]
  }

  function SendNext(s: State): State
    requires Enabled(s, PollSend)
  {
    var p := s.poll.evs[0];
    var moved := s.(cursor := p, poll := Sending(s.poll.evs[1..]));
    if s.conn.Absent? then moved
    else if |s.ch| < s.bufSize then moved.(ch := s.ch + [p])
    else moved.(dropped := s.dropped + 1)
  }

  /** Subscribe and the decision whether to backfill. */
  function ConnectNext(s: State, since: Cursor): State {
    var cut := CursorAt(s.cursor);
    var joined := s.(ch := [], dropped := 0, out := [], taken := Max(s.cursor, s.base));
    if since != cut && (cut != Zero || since != Zero) then joined.(conn := Backfilling(since, s.cursor, since))
    else joined.(conn := Live(since, s.cursor, false, None))
  }

  /** One round of the backfill loop. */
  function BackfillNext(s: State, c: Conn, batch: nat): State
    requires c.Backfilling?
  {
    var evs := Read(s, c.last, batch);
    if evs == [] then
      var gating := c.since != Zero && c.last != c.since;
      s.(conn := Live(c.since, c.cut, c.last != c.since, if gating then Some(c.last) else None))
    else
      var w := UpToCut(evs, c.cut);
      var wrote := s.(out := s.out + w);
      if w != [] && w[|w| - 1] == c.cut then wrote.(conn := Live(c.since, c.cut, true, None))
      else wrote.(conn := c.(last := if w != [] && w[|w| - 1] > 0 then Id(w[|w| - 1]) else c.last))
  }

  function ReceiveNext(s: State): State
    requires Enabled(s, Receive)
  {
    var p := s.ch[0];
    var got := s.(ch := s.ch[1..], taken := p);
    if s.conn.gate.Some? then
      if p > 0 && Id(p) == s.conn.gate.value then got.(conn := s.conn.(gate := None)) else got
    else got.(out := s.out + [p])
  }

  function Next(s: State, act: Action): State
    requires Enabled(s, act)
  {
    match act
    case Publish(e) => s.(log := s.log + [e])
    case PollRead(batch) =>
      var evs := Read(s, CursorAt(s.cursor), batch);
      if evs == [] then s else s.(poll := Holding(evs))
    case PollLock => s.(poll := Sending(s.poll.evs))
    case PollSend => SendNext(s)
    case PollUnlock => s.(poll := Idle)
    case Connect(since) => ConnectNext(s, since)
    case BackfillRead(batch) => BackfillNext(s, s.conn, batch)
    case Receive => ReceiveNext(s)
  }

  /** No connection yet; the broker may be anywhere in the log. */
  ghost predicate Init(s: State) {
    && s.base <= |s.log| && s.cursor <= |s.log| && s.poll == Idle && s.conn == Absent
    && s.ch == [] && s.out == [] && s.dropped == 0
  }

  ghost predicate Run(states: seq<State>, acts: seq<Action>) {
    && |states| == |acts| + 1
    && Init(states[0])
    && forall i :: 0 <= i < |acts| ==> Enabled(states[i], acts[i]) && states[i + 1] == Next(states[i], acts[i])
  }

  // ---------------------------------------------------------------- the invariant

  /** How far the broker has come in what the store still holds. */
  function Reach(s: State): int {
    Max(s.cursor, s.base)
  }

  predicate PollOk(s: State) {
    && s.base <= |s.log| && s.cursor <= |s.log|
    && (!s.poll.Idle? ==> s.poll.evs == Span(Reach(s), Reach(s) + |s.poll.evs|) && Reach(s) + |s.poll.evs| <= |s.log|)
  }

  /** While nothing was dropped, the channel holds what lies between the consumer and the broker. */
  predicate ChannelOk(s: State) {
    !s.conn.Absent? && s.dropped == 0 ==> s.taken <= Reach(s) && s.ch == Span(s.taken, Reach(s))
  }

  /** Where the client's cursor stands in what the store holds. */
  function From(s: State, since: Cursor): int
    requires LowerBound(since).Some?
  {
    Max(LowerBound(since).value, s.base)
  }

  predicate BackfillOk(s: State, c: Conn)
    requires c.Backfilling?
  {
    && c.cut <= s.cursor && s.taken == Max(c.cut, s.base) && c.since != CursorAt(c.cut)
    && (LowerBound(c.since).None? ==> c.last == c.since && s.out == [])
    && (LowerBound(c.since).Some? ==>
          if c.last == c.since then s.out == []
          else
            && c.last.Id? && From(s, c.since) < c.last.seqNo <= |s.log|
            && s.out == Span(From(s, c.since), c.last.seqNo)
            && (c.cut <= From(s, c.since) || c.last.seqNo < c.cut))
  }

  /**
   When the backfill and the live channel meet without a gap or an overlap.  For a
   client that starts at "0" the cut must still be in the store, or nothing be left
   to replay; for any other cursor the backfill must find something, or the cursor
   not be ahead of the cut.
   */
  predicate Stitches(s: State, c: Conn)
    requires c.Live?
  {
    && LowerBound(c.since).Some?
    && if c.since == Zero then c.cut == 0 || c.cut > s.base || !c.delivered
       else c.delivered || From(s, c.since) <= Max(c.cut, s.base)
  }

  /** The output is the part of the log after `since`, up to some point. */
  predicate Exact(s: State, since: Cursor)
    requires LowerBound(since).Some?
  {
    s.out == Span(From(s, since), From(s, since) + |s.out|)
  }

  ghost predicate LiveOk(s: State, c: Conn)
    requires c.Live?
  {
    && c.cut <= s.cursor && Max(c.cut, s.base) <= s.taken
    && (c.gate.Some? ==>
          && LowerBound(c.since).Some? && c.since != Zero && c.delivered
          && c.gate.value.Id? && From(s, c.since) < c.gate.value.seqNo <= |s.log|
          && s.out == Span(From(s, c.since), c.gate.value.seqNo) && s.taken < c.gate.value.seqNo)
    && (c.gate.None? && Stitches(s, c) ==> From(s, c.since) <= s.taken && s.out == Span(From(s, c.since), s.taken))
    && (c.gate.None? && !Stitches(s, c) && !c.delivered ==> s.out == Span(Max(c.cut, s.base), s.taken))
    && (LowerBound(c.since).None? ==> !c.delivered)
    && (c.gate.None? && !Stitches(s, c) && c.delivered ==>
          c.since == Zero && 0 < c.cut <= s.base
          && exists n: nat :: s.base < n && s.out == Span(s.base, n) + Span(s.base, s.taken))
  }

  ghost predicate ConnOk(s: State) {
    match s.conn
    case Absent => true
    case Backfilling(_, _, _) => BackfillOk(s, s.conn)
    case Live(_, _, _, _) => s.dropped == 0 ==> LiveOk(s, s.conn)
  }

  ghost predicate Inv(s: State) {
    PollOk(s) && ChannelOk(s) && ConnOk(s)
  }

  // ---------------------------------------------------------------- the broker's side

  lemma SendStep(s: State)
    requires PollOk(s) && ChannelOk(s) && Enabled(s, PollSend)
    ensures PollOk(SendNext(s)) && ChannelOk(SendNext(s)) && s.cursor < SendNext(s).cursor == Reach(SendNext(s))
  {
    var s' := SendNext(s);
    assert s.poll.evs[0] == Reach(s) + 1;
    assert s'.poll.evs == Span(Reach(s) + 1, Reach(s) + |s.poll.evs|);
    if !s.conn.Absent? && s'.dropped == 0 {
      assert s'.ch == Span(s.taken, Reach(s)) + [Reach(s) + 1];
      SpanGrows(s.taken, Reach(s), Reach(s) + 1);
    }
  }

  lemma ReceiveKeepsChannel(s: State)
    requires PollOk(s) && ChannelOk(s) && Enabled(s, Receive)
    ensures PollOk(ReceiveNext(s)) && ChannelOk(ReceiveNext(s))
  {
    if s.dropped == 0 {
      assert s.ch[0] == s.taken + 1;
      assert s.ch[1..] == Span(s.taken + 1, Reach(s));
    }
  }

  lemma PollStep(s: State, act: Action)
    requires PollOk(s) && ChannelOk(s) && Enabled(s, act) && !act.BackfillRead?
    ensures PollOk(Next(s, act)) && ChannelOk(Next(s, act))
  {
    match act
    case PollSend => SendStep(s);
    case Receive => ReceiveKeepsChannel(s);
    case _ =>
  }

  lemma BackfillKeepsChannel(s: State, batch: nat)
    requires PollOk(s) && ChannelOk(s) && s.conn.Backfilling?
    ensures PollOk(BackfillNext(s, s.conn, batch)) && ChannelOk(BackfillNext(s, s.conn, batch))
    ensures var s' := BackfillNext(s, s.conn, batch);
            s' == s.(conn := s'.conn, out := s'.out) && !s'.conn.Absent?
  {
  }

  // ---------------------------------------------------------------- the connection's side

  lemma {:induction false} WritesSpan(lo: int, hi: int, i: nat, cut: nat)
    requires lo + i <= hi && (lo < cut ==> lo + i < cut)
    ensures Writes(Span(lo, hi), i, cut) == if lo < cut <= hi then cut - lo else hi - lo
    decreases hi - lo - i
  {
    if lo + i < hi && lo + i + 1 != cut {
      WritesSpan(lo, hi, i + 1, cut);
    }
  }

  /** A batch either ends at the cut or does not contain it. */
  lemma UpToCutSpan(lo: int, hi: int, cut: nat)
    requires lo <= hi
    ensures UpToCut(Span(lo, hi), cut) == if lo < cut <= hi then Span(lo, cut) else Span(lo, hi)
  {
    WritesSpan(lo, hi, 0, cut);
  }

  lemma ConnectStep(s: State, since: Cursor)
    requires PollOk(s) && Enabled(s, Connect(since))
    ensures ConnOk(ConnectNext(s, since))
  {
  }

  /** The backfill finds nothing more. */
  lemma BackfillEnds(s: State, c: Conn, batch: nat)
    requires PollOk(s) && c.Backfilling? && BackfillOk(s, c) && batch > 0 && Read(s, c.last, batch) == []
    ensures LiveOk(BackfillNext(s, c, batch), BackfillNext(s, c, batch).conn)
  {
    var s' := BackfillNext(s, c, batch);
    if c.last != c.since && LowerBound(c.since).Some? {
      assert c.last.seqNo == |s.log|;
      if c.since == Zero {
        assert s'.out == Span(s.base, c.last.seqNo) + Span(s.base, s.base);
      }
    }
  }

  /** A batch extends what was written, up to the cut if it contains it. */
  lemma BackfillOutput(s: State, c: Conn, batch: nat) returns (lo: int, end: int)
    requires PollOk(s) && c.Backfilling? && BackfillOk(s, c) && batch > 0 && Read(s, c.last, batch) != []
    ensures LowerBound(c.since).Some? && From(s, c.since) <= lo < end <= |s.log|
    ensures lo == if c.last == c.since then From(s, c.since) else c.last.seqNo
    ensures UpToCut(Read(s, c.last, batch), c.cut) == Span(lo, end)
    ensures s.out + Span(lo, end) == Span(From(s, c.since), end)
    ensures lo < c.cut <= end ==> end == c.cut
  {
    lo := Max(LowerBound(c.last).value, s.base);
    var hi := Min(lo + batch, |s.log|);
    UpToCutSpan(lo, hi, c.cut);
    end := if lo < c.cut <= hi then c.cut else hi;
    SpanGrows(From(s, c.since), lo, end);
  }

  /** The backfill writes a batch. */
  lemma BackfillWrites(s: State, c: Conn, batch: nat)
    requires PollOk(s) && c.Backfilling? && BackfillOk(s, c) && batch > 0 && Read(s, c.last, batch) != []
    ensures var s' := BackfillNext(s, c, batch);
            if s'.conn.Live? then LiveOk(s', s'.conn) else s'.conn.Backfilling? && BackfillOk(s', s'.conn)
  {
    var lo, end := BackfillOutput(s, c, batch);
    var s' := BackfillNext(s, c, batch);
    assert s'.out == Span(From(s, c.since), end);
    assert Span(lo, end)[|Span(lo, end)| - 1] == end;
    if end == c.cut {
      assert s'.conn == Live(c.since, c.cut, true, None);
    } else {
      assert s'.conn == c.(last := Id(end));
    }
  }

  lemma ReceiveStep(s: State)
    requires PollOk(s) && ChannelOk(s) && Enabled(s, Receive) && s.dropped == 0 && LiveOk(s, s.conn)
    ensures LiveOk(ReceiveNext(s), ReceiveNext(s).conn)
  {
    var s', c := ReceiveNext(s), s.conn;
    assert s.ch[0] == s.taken + 1;
    if c.gate.None? {
      assert [s.ch[0]] == Span(s.taken, s.taken + 1);
      if Stitches(s, c) {
        SpanGrows(From(s, c.since), s.taken, s.taken + 1);
      } else if !c.delivered {
        SpanGrows(Max(c.cut, s.base), s.taken, s.taken + 1);
      } else {
        var n: nat :| s.base < n && s.out == Span(s.base, n) + Span(s.base, s.taken);
        SpanGrows(s.base, s.taken, s.taken + 1);
        assert s'.out == Span(s.base, n) + Span(s.base, s'.taken);
      }
    }
  }

  /** The connection only notices that the log and the cursor have grown. */
  lemma ConnFrame(s: State, s': State)
    requires ConnOk(s)
    requires s'.conn == s.conn && s'.out == s.out && s'.taken == s.taken && s'.base == s.base
    requires |s.log| <= |s'.log| && s.cursor <= s'.cursor && s.dropped <= s'.dropped
    ensures ConnOk(s')
  {
  }

  lemma OtherStep(s: State, act: Action)
    requires PollOk(s) && ChannelOk(s) && ConnOk(s)
    requires Enabled(s, act) && !act.Connect? && !act.BackfillRead? && !act.Receive?
    ensures ConnOk(Next(s, act))
  {
    var s' := Next(s, act);
    assert s.cursor <= s'.cursor by {
      if act.PollSend? {
        SendStep(s);
      }
    }
    ConnFrame(s, s');
  }

  lemma ConnStep(s: State, act: Action)
    requires Inv(s) && Enabled(s, act)
    ensures ConnOk(Next(s, act))
  {
    match act
    case Connect(since) => ConnectStep(s, since);
    case BackfillRead(batch) =>
      if Read(s, s.conn.last, batch) == [] {
        BackfillEnds(s, s.conn, batch);
      } else {
        BackfillWrites(s, s.conn, batch);
      }
    case Receive =>
      if s.dropped == 0 {
        ReceiveStep(s);
      }
    case _ => OtherStep(s, act);
  }

  lemma {:induction false} RunInv(states: seq<State>, acts: seq<Action>, n: nat)
    requires Run(states, acts) && n < |states|
    ensures Inv(states[n])
  {
    if n > 0 {
      RunInv(states, acts, n - 1);
      var s, act := states[n - 1], acts[n - 1];
      ConnStep(s, act);
      if act.BackfillRead? {
        BackfillKeepsChannel(s, act.batch);
      } else {
        PollStep(s, act);
      }
    }
  }

  // ---------------------------------------------------------------- the theorems

  /**
   Exactly-once resume.  If the parts stitch, the output is at every moment the part of
   the log after the client's cursor up to some point, with no gap and no duplicate; and
   once the broker has caught up and the channel is drained it is all of it.
   */
  lemma ExactlyOnce(states: seq<State>, acts: seq<Action>, n: nat)
    requires Run(states, acts) && n < |states| && states[n].conn.Live? && states[n].dropped == 0
    requires Stitches(states[n], states[n].conn)
    ensures var s := states[n];
            && Exact(s, s.conn.since)
            && (s.ch == [] && Reach(s) == |s.log| ==> s.out == Span(From(s, s.conn.since), |s.log|))
  {
    RunInv(states, acts, n);
  }

  /** While the backfill runs its output is the part of the log after the client's cursor, too. */
  lemma ExactBackfill(states: seq<State>, acts: seq<Action>, n: nat)
    requires Run(states, acts) && n < |states| && states[n].conn.Backfilling?
    requires LowerBound(states[n].conn.since).Some?
    ensures Exact(states[n], states[n].conn.since)
  {
    RunInv(states, acts, n);
  }

  /** A span does not start over. */
  lemma NoRepeat(lo: int, n: int, hi: int, s: seq<int>, from: int)
    requires lo < n && lo < hi && s == Span(lo, n) + Span(lo, hi)
    ensures s != Span(from, from + |s|)
  {
    assert s[0] == lo + 1 == s[n - lo];
  }

  /**
   And only then: once a live entry has arrived, the output is exact if and only if the
   parts stitch.  A cursor ahead of the cut with nothing to backfill replays older
   entries; a client at "0" whose cut was trimmed away gets the retained log twice.
   */
  lemma ExactIffStitches(states: seq<State>, acts: seq<Action>, n: nat)
    requires Run(states, acts) && n < |states| && states[n].conn.Live? && states[n].dropped == 0
    requires LowerBound(states[n].conn.since).Some?
    requires states[n].taken > Max(states[n].conn.cut, states[n].base)
    ensures Exact(states[n], states[n].conn.since) <==> Stitches(states[n], states[n].conn)
  {
    RunInv(states, acts, n);
    var s := states[n];
    if !Stitches(s, s.conn) {
      if s.conn.delivered {
        var m: nat :| s.base < m && s.out == Span(s.base, m) + Span(s.base, s.taken);
        NoRepeat(s.base, m, s.taken, s.out, From(s, s.conn.since));
      } else {
        assert s.out[0] == Max(s.conn.cut, s.base) + 1 <= From(s, s.conn.since);
      }
    }
  }

  // ---------------------------------------------------------------- clients that keep up

  /** The step sends to a connection whose channel is full. */
  predicate FindsFull(s: State, act: Action) {
    act.PollSend? && !s.conn.Absent? && |s.ch| >= s.bufSize
  }

  /** One step drops an entry exactly if it sends to a full channel; into any other the entry goes last. */
  lemma DropsIffFull(s: State, act: Action)
    requires Enabled(s, act) && (s.conn.Absent? ==> s.dropped == 0)
    ensures Next(s, act).conn.Absent? ==> Next(s, act).dropped == 0
    ensures Next(s, act).dropped == s.dropped + (if FindsFull(s, act) then 1 else 0)
    ensures act.PollSend? && !s.conn.Absent? && !FindsFull(s, act) ==> Next(s, act).ch == s.ch + [s.poll.evs[0]]
  {
  }

  /** Nothing was dropped exactly where every send has found room: where the client has kept up. */
  lemma {:induction false} NothingDroppedIff(states: seq<State>, acts: seq<Action>, n: nat)
    requires Run(states, acts) && n < |states|
    ensures states[n].conn.Absent? ==> states[n].dropped == 0
    ensures states[n].dropped == 0 <==> forall i :: 0 <= i < n ==> !FindsFull(states[i], acts[i])
  {
    if n > 0 {
      NothingDroppedIff(states, acts, n - 1);
      DropsIffFull(states[n - 1], acts[n - 1]);
    }
  }

  /** So a client that keeps up resumes exactly once. */
  lemma KeepingUpIsExact(states: seq<State>, acts: seq<Action>, n: nat)
    requires Run(states, acts) && n < |states| && states[n].conn.Live? && Stitches(states[n], states[n].conn)
    requires forall i :: 0 <= i < n ==> !FindsFull(states[i], acts[i])
    ensures var s := states[n];
            && Exact(s, s.conn.since)
            && (s.ch == [] && Reach(s) == |s.log| ==> s.out == Span(From(s, s.conn.since), |s.log|))
  {
    NothingDroppedIff(states, acts, n);
    ExactlyOnce(states, acts, n);
  }

  /** The connection's channel and drop counter, in numbers, are the subscription's. */
  predicate Mirrors(s: State, f: Broker.Feed) {
    && |f.ch| == |s.ch| && f.dropped == s.dropped
    && forall i :: 0 <= i < |s.ch| ==> f.ch[i].seqNo == s.ch[i]
  }

  /** A send here is the broker's send to the subscription, and a receive its consumer's. */
  lemma MirrorsBroker(s: State, f: Broker.Feed, se: StreamEvent, at: nat)
    requires Mirrors(s, f) && !s.conn.Absent?
    ensures Enabled(s, PollSend) && se.seqNo == s.poll.evs[0] ==>
              Mirrors(SendNext(s), Broker.Fed(f, se, at, s.bufSize))
    ensures Enabled(s, Receive) ==> Mirrors(ReceiveNext(s), Broker.Drained(f))
  {
  }

  // ---------------------------------------------------------------- the two ways to go wrong

  ghost predicate Ends(states: seq<State>, s: State) {
    states != [] && states[|states| - 1] == s
  }

  ghost predicate Reachable(s: State) {
    exists states, acts :: Run(states, acts) && Ends(states, s)
  }

  lemma On(s: State, act: Action)
    requires Reachable(s) && Enabled(s, act)
    ensures Reachable(Next(s, act))
  {
    var states, acts :| Run(states, acts) && Ends(states, s);
    var states', acts' := states + [Next(s, act)], acts + [act];
    forall i | 0 <= i < |acts'| ensures Enabled(states'[i], acts'[i]) && states'[i + 1] == Next(states'[i], acts'[i]) {
      if i < |acts| {
        assert states'[i] == states[i] && states'[i + 1] == states[i + 1] && acts'[i] == acts[i];
      }
    }
    assert states'[0] == states[0];
    assert Run(states', acts') && Ends(states', Next(s, act));
  }

  /** A poll tick finds one entry, fans it out, and the ungated client receives it. */
  lemma Delivered(s: State, p: int) returns (t: State)
    requires Reachable(s) && s.poll == Idle && s.conn.Live? && s.conn.gate == None && s.ch == [] && s.bufSize > 0
    requires Reach(s) + 1 == p <= |s.log| && p > 0
    ensures Reachable(t) && t.out == s.out + [p] && t.conn == s.conn && t.dropped == s.dropped && t.base == s.base
  {
    assert Read(s, CursorAt(s.cursor), 1) == [p];
    On(s, PollRead(1));
    var s1 := s.(poll := Holding([p]));
    On(s1, PollLock);
    var s2 := s.(poll := Sending([p]));
    On(s2, PollSend);
    var s3 := SendNext(s2);
    assert s3.ch == [p];
    On(s3, Receive);
    t := ReceiveNext(s3);
  }

  /** The broker has read the first entry, and nobody is connected. */
  lemma Beginning(log: seq<Event>, base: nat) returns (s: State)
    requires base <= |log| && 1 <= |log|
    ensures s == State(log, base, 1, Idle, 1, [], 0, Absent, [], 0) && Reachable(s)
  {
    s := State(log, base, 1, Idle, 1, [], 0, Absent, [], 0);
    assert Run([s], []) && Ends([s], s);
  }

  /** A cursor ahead of the cut with nothing to backfill is sent an entry before it. */
  lemma AheadOfCutReplays(e: Event) returns (s: State)
    ensures Reachable(s) && s.conn.Live? && s.conn.since == Id(5) && s.dropped == 0 && s.base == 0
    ensures s.out == [2] && !Exact(s, Id(5)) && !Stitches(s, s.conn)
  {
    var s0 := Beginning([e], 0);
    On(s0, Connect(Id(5)));
    var s1 := ConnectNext(s0, Id(5));
    assert Read(s1, Id(5), 1) == [];
    On(s1, BackfillRead(1));
    var s2 := BackfillNext(s1, s1.conn, 1);
    On(s2, Publish(e));
    s := Delivered(s2.(log := s2.log + [e]), 2);
    assert Span(5, 6)[0] == 6;
  }

  /** With the cut trimmed away the backfill of a client at "0" writes everything and arms no gate. */
  lemma TrimmedCutMissed(e: Event) returns (s: State)
    ensures Reachable(s) && s.conn == Live(Zero, 1, true, None) && s.dropped == 0 && s.base == 1 && s.out == [2]
    ensures s.poll == Idle && s.ch == [] && s.bufSize == 1 && s.cursor == 1 && |s.log| == 2
  {
    var s0 := Beginning([e, e], 1);
    On(s0, Connect(Zero));
    var s1 := ConnectNext(s0, Zero);
    assert Read(s1, Zero, 1) == Span(1, 2);
    UpToCutSpan(1, 2, 1);
    On(s1, BackfillRead(1));
    var s2 := BackfillNext(s1, s1.conn, 1);
    assert s2.out == [2] && s2.conn == s1.conn.(last := Id(2));
    assert Read(s2, Id(2), 1) == [];
    On(s2, BackfillRead(1));
    s := BackfillNext(s2, s2.conn, 1);
  }

  /** So the live channel sends it the retained entry a second time. */
  lemma TrimmedCutRepeats(e: Event) returns (s: State)
    ensures Reachable(s) && s.conn.Live? && s.conn.since == Zero && s.dropped == 0 && s.base == 1
    ensures s.out == [2, 2] && !Exact(s, Zero) && !Stitches(s, s.conn)
  {
    var s0 := TrimmedCutMissed(e);
    s := Delivered(s0, 2);
    assert [2] + [2] == [2, 2] && Span(1, 3)[1] == 3;
  }

  // ---------------------------------------------------------------- further cursors

  /** A cursor the store cannot read is served the live events after the cut. */
  lemma ForeignCursorIsLiveOnly(states: seq<State>, acts: seq<Action>, n: nat)
    requires Run(states, acts) && n < |states| && states[n].conn.Live? && states[n].dropped == 0
    requires states[n].conn.since.Foreign?
    ensures states[n].out == Span(Max(states[n].conn.cut, states[n].base), states[n].taken)
  {
    RunInv(states, acts, n);
  }

  /** What the client is sent. */
  ghost function Events(s: State): seq<Event>
    requires forall i :: 0 <= i < |s.out| ==> 1 <= s.out[i] <= |s.log|
  {
    seq(|s.out|, i requires 0 <= i < |s.out| => s.log[s.out[i] - 1])
  }

  /** On an untrimmed log, a cursor that is not ahead of the cut gets exactly the events after it. */
  lemma UntrimmedResume(states: seq<State>, acts: seq<Action>, n: nat, start: nat)
    requires Run(states, acts) && n < |states| && states[n].conn.Live? && states[n].dropped == 0
    requires states[n].base == 0 && states[n].conn.since == CursorAt(start)
    requires start <= states[n].conn.cut || states[n].conn.delivered
    requires states[n].ch == [] && states[n].cursor == |states[n].log|
    ensures var s := states[n];
            && start <= |s.log| && (forall i :: 0 <= i < |s.out| ==> 1 <= s.out[i] <= |s.log|)
            && Events(s) == s.log[start..]
  {
    ExactlyOnce(states, acts, n);
    RunInv(states, acts, n);
    assert LiveOk(states[n], states[n].conn);
    assert states[n].out == Span(start, |states[n].log|);
  }

  // ---------------------------------------------------------------- positions and entries

  /** What the store holds above a cursor. */
  function Above(entries: seq<StreamEvent>, c: Cursor): seq<StreamEvent> {
    match LowerBound(c)
    case None => []
    case Some(n) => After(entries, n)
  }

  /** The entries as the store holds them: what lies above the trimmed part, numbered by position. */
  ghost predicate Holds(entries: seq<StreamEvent>, s: State) {
    && Contiguous(entries, |s.log|) && s.base <= |s.log| && |entries| == |s.log| - s.base
    && forall i :: 0 <= i < |entries| ==> entries[i].event == s.log[s.base + i]
  }

  /** One batch starting behind the first `k` entries. */
  lemma BatchAt(entries: seq<StreamEvent>, s: State, k: nat, count: nat, i: nat)
    requires Holds(entries, s) && k <= |entries| && i < |Take(entries[k..], count)|
    ensures var e := Take(entries[k..], count)[i];
            e.seqNo == s.base + k + 1 + i && e.seqNo <= |s.log| && e.event == s.log[e.seqNo - 1]
  {
    var j := k + i;
    assert Take(entries[k..], count)[i] == entries[j];
    assert entries[j].seqNo == |s.log| - |entries| + 1 + j;
    assert entries[j].event == s.log[s.base + j];
  }

  /** Above a lower bound, the store's batch is the span of positions, with the log's events. */
  lemma BatchIsSpan(entries: seq<StreamEvent>, s: State, n: int, count: nat)
    requires Holds(entries, s)
    ensures var got := Take(After(entries, n), count);
            var lo := Max(n, s.base);
            && |got| == |Span(lo, Min(lo + count, |s.log|))|
            && forall i :: 0 <= i < |got| ==>
                 got[i].seqNo == lo + 1 + i && got[i].seqNo <= |s.log| && got[i].event == s.log[got[i].seqNo - 1]
  {
    var k := Skipped(|entries|, |s.log|, n);
    AfterIsSuffix(entries, |s.log|, n);
    var got := Take(entries[k..], count);
    forall i | 0 <= i < |got|
      ensures got[i].seqNo == s.base + k + 1 + i && got[i].seqNo <= |s.log| && got[i].event == s.log[got[i].seqNo - 1]
    {
      BatchAt(entries, s, k, count, i);
    }
  }

  /** Reading positions is what ReadEvents does: same numbers, same events, for any cursor and batch. */
  lemma ReadIsReadEvents(entries: seq<StreamEvent>, s: State, last: Cursor, count: nat)
    requires Holds(entries, s)
    ensures var got := Take(Above(entries, last), count);
            var read := Read(s, last, count);
            && |got| == |read|
            && forall i :: 0 <= i < |got| ==>
                 got[i].seqNo == read[i] && 1 <= read[i] <= |s.log| && got[i].event == s.log[read[i] - 1]
  {
    if LowerBound(last).Some? {
      BatchIsSpan(entries, s, LowerBound(last).value, count);
    }
  }

  // ---------------------------------------------------------------- the loop itself

  /** Where a lower bound cuts the store's entries. */
  lemma AfterCut(entries: seq<StreamEvent>, newest: nat, n: int) returns (k: nat)
    requires Contiguous(entries, newest)
    ensures k <= |entries| && After(entries, n) == entries[k..]
    ensures forall j :: 0 <= j < |entries| ==> (entries[j].seqNo > n <==> j >= k)
  {
    AfterIsSuffix(entries, newest, n);
    k := Skipped(|entries|, newest, n);
  }

  /** The entries above an entry's own number start right behind it. */
  lemma CutBehind(entries: seq<StreamEvent>, newest: nat, p: nat, j: nat)
    requires Contiguous(entries, newest) && p < |entries| && j <= |entries|
    requires forall x :: 0 <= x < |entries| ==> (entries[x].seqNo > entries[p].seqNo <==> x >= j)
    ensures j == p + 1
  {
    assert !(p >= j);
    if p + 1 < |entries| {
      assert entries[p + 1].seqNo > entries[p].seqNo;
    }
  }

  /** Reading on from an entry that was read continues right behind it. */
  lemma BatchContinues(entries: seq<StreamEvent>, newest: nat, c: Cursor, k: nat)
    requires Contiguous(entries, newest) && k < |Above(entries, c)|
    ensures Above(entries, Id(Above(entries, c)[k].seqNo)) == Above(entries, c)[k + 1..]
    ensures Id(Above(entries, c)[k].seqNo) != c
  {
    var i := AfterCut(entries, newest, LowerBound(c).value);
    var j := AfterCut(entries, newest, entries[i + k].seqNo);
    CutBehind(entries, newest, i + k, j);
  }

  /** The cut is the last entry written, or none of them. */
  ghost predicate StopsAt(wrote: seq<StreamEvent>, cut: Cursor, foundCut: bool) {
    && (foundCut ==> wrote != [] && Id(wrote[|wrote| - 1].seqNo) == cut)
    && (forall i :: 0 <= i < |wrote| && Id(wrote[i].seqNo) == cut ==> foundCut && i == |wrote| - 1)
  }

  lemma StopsLater(out: seq<StreamEvent>, wrote: seq<StreamEvent>, cut: Cursor, foundCut: bool)
    requires StopsAt(out, cut, false) && StopsAt(wrote, cut, foundCut)
    ensures StopsAt(out + wrote, cut, foundCut)
  {
    forall i | 0 <= i < |out + wrote| && Id((out + wrote)[i].seqNo) == cut ensures foundCut && i == |out + wrote| - 1 {
      assert i >= |out| ==> (out + wrote)[i] == wrote[i - |out|];
    }
  }

  /** Replays one batch, stopping right after the cut. */
  method ReplayBatch(events: seq<StreamEvent>, cut: Cursor) returns (wrote: seq<StreamEvent>, foundCut: bool)
    ensures wrote <= events && StopsAt(wrote, cut, foundCut) && (!foundCut ==> wrote == events)
  {
    wrote, foundCut := [], false;
    var i := 0;
    while i < |events|
      invariant 0 <= i <= |events| && wrote == events[..i]
      invariant forall j :: 0 <= j < i ==> Id(events[j].seqNo) != cut
    {
      wrote := wrote + [events[i]];
      if Id(events[i].seqNo) == cut {
        return wrote, true;
      }
      i := i + 1;
    }
  }

  /**
   handleSSE up to the live loop, on a store that is quiet meanwhile.  Whatever the
   batch size, it writes everything above `since` through the cut, or everything if the
   cut is not there; and it gates on the last entry written exactly if it wrote some
   without meeting the cut and `since` is not "0".
   */
  method Backfill(store: MockStore, since: Cursor, cut: Cursor, batch: nat)
    returns (out: seq<StreamEvent>, foundCut: bool, gate: Option<Cursor>)
    requires store.Valid() && batch > 0
    ensures since == cut ==> out == [] && foundCut
    ensures since != cut ==>
              && out <= Above(store.streamEvents, since)
              && StopsAt(out, cut, foundCut)
              && (!foundCut ==> out == Above(store.streamEvents, since))
    ensures gate == if foundCut || since == Zero || out == [] then None else Some(Id(out[|out| - 1].seqNo))
  {
    foundCut := since == cut;
    out := [];
    var cursor := since;
    ghost var all := Above(store.streamEvents, since);
    if !foundCut && (cut != Zero || since != Zero) {
      out, foundCut, cursor := BackfillLoop(store, since, cut, batch);
      if out != [] {
        BatchContinues(store.streamEvents, store.streamSeq, since, |out| - 1);
        assert out[|out| - 1] == all[|out| - 1];
      }
    }
    var lastBackfilled := cursor;
    var gating := !foundCut && since != Zero && lastBackfilled != since;
    gate := if gating then Some(lastBackfilled) else None;
  }

  /** One read and its replay; nothing is written exactly when nothing is left. */
  method BackfillRound(store: MockStore, cursor: Cursor, cut: Cursor, batch: nat)
    returns (wrote: seq<StreamEvent>, found: bool)
    requires store.Valid() && batch > 0
    ensures wrote <= Above(store.streamEvents, cursor)
    ensures wrote == [] <==> Above(store.streamEvents, cursor) == []
    ensures wrote != [] ==>
              Above(store.streamEvents, Id(wrote[|wrote| - 1].seqNo)) == Above(store.streamEvents, cursor)[|wrote|..]
    ensures StopsAt(wrote, cut, found)
  {
    var events := store.ReadEvents(cursor, batch);
    if |events| == 0 {
      return [], false;
    }
    ghost var rest := Above(store.streamEvents, cursor);
    assert events == Take(rest, batch);
    wrote, found := ReplayBatch(events, cut);
    assert wrote <= events <= rest && wrote != [];
    BatchContinues(store.streamEvents, store.streamSeq, cursor, |wrote| - 1);
  }

  /** Writing on from a prefix gives a longer prefix. */
  lemma LongerPrefix<T>(all: seq<T>, out: seq<T>, wrote: seq<T>)
    requires out <= all && wrote <= all[|out|..]
    ensures out + wrote <= all && all[|out|..][|wrote|..] == all[|out + wrote|..]
  {
  }

  method BackfillLoop(store: MockStore, since: Cursor, cut: Cursor, batch: nat)
    returns (out: seq<StreamEvent>, foundCut: bool, cursor: Cursor)
    requires store.Valid() && batch > 0
    ensures out <= Above(store.streamEvents, since)
    ensures StopsAt(out, cut, foundCut)
    ensures !foundCut ==> out == Above(store.streamEvents, since)
    ensures cursor == if out == [] then since else Id(out[|out| - 1].seqNo)
  {
    ghost var all := Above(store.streamEvents, since);
    out, foundCut, cursor := [], false, since;
    while true
      invariant !foundCut && out <= all && Above(store.streamEvents, cursor) == all[|out|..]
      invariant cursor == if out == [] then since else Id(out[|out| - 1].seqNo)
      invariant StopsAt(out, cut, false)
      decreases |all| - |out|
    {
      var wrote, found := BackfillRound(store, cursor, cut, batch);
      if |wrote| == 0 {
        break;
      }
      LongerPrefix(all, out, wrote);
      StopsLater(out, wrote, cut, found);
      out := out + wrote;
      cursor := Id(wrote[|wrote| - 1].seqNo);
      if found {
        foundCut := true;
        break;
      }
    }
  }
}
