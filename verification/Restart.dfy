/**
 The restart policy: a sliding window of crashes per agent opens the circuit, a
 consecutive counter drives an exponential backoff capped at a maximum.
 Durations are 64-bit and wrap around.
 */
module Restart {
  import opened Types
  import opened SupervisorSystem

  // ---------------------------------------------------------------- the backoff

  const TWO_62: int := 0x4000_0000_0000_0000
  const TWO_63: int := 0x8000_0000_0000_0000
  const TWO_64: int := 0x1_0000_0000_0000_0000

  /** The int64 that a mathematical result is stored as. */
  function Wrap(x: int): (r: int)
    ensures -TWO_63 <= r < TWO_63
    ensures -TWO_63 <= x < TWO_63 ==> r == x
  {
    (x + TWO_63) % TWO_64 - TWO_63
  }

  /** What `left` more rounds of the doubling loop make of the current backoff `b`. */
  function Rounds(b: int, max: int, left: nat): int
    decreases left
  {
    if left == 0 then b
    else if Wrap(2 * b) >= max then max
    else Rounds(Wrap(2 * b), max, left - 1)
  }

  /** b * 2^k */
  function Doubled(b: int, k: nat): int {
    if k == 0 then b else 2 * Doubled(b, k - 1)
  }

  function Least(a: int, b: int): int {
    if a < b then a else b
  }

  lemma {:induction false} DoubledShift(b: int, k: nat)
    ensures Doubled(2 * b, k) == Doubled(b, k + 1)
  {
    if k > 0 {
      DoubledShift(b, k - 1);
    }
  }

  lemma {:induction false} DoubledGrows(b: int, j: nat, k: nat)
    requires b > 0 && j <= k
    ensures 0 < Doubled(b, j) <= Doubled(b, k)
  {
    if j < k {
      DoubledGrows(b, j, k - 1);
    } else if j > 0 {
      DoubledGrows(b, j - 1, k - 1);
    }
  }

  /** The loop never doubles a value of 2^62 or more. */
  ghost predicate InRange(b: int, max: int) {
    b < TWO_62 && forall k: nat :: Doubled(b, k) < max ==> Doubled(b, k) < TWO_62
  }

  lemma {:induction false} CappedDoubling(b: int, max: int, left: nat)
    requires b > 0 && left >= 1 && InRange(b, max)
    ensures Rounds(b, max, left) == Least(Doubled(b, left), max)
    decreases left
  {
    DoubledShift(b, left - 1);
    DoubledGrows(2 * b, 0, left - 1);
    if 2 * b < max && left > 1 {
      forall k: nat | Doubled(2 * b, k) < max ensures Doubled(2 * b, k) < TWO_62 {
        DoubledShift(b, k);
      }
      assert Doubled(2 * b, 0) < TWO_62;
      CappedDoubling(2 * b, max, left - 1);
    }
  }

  /** Reaching a value below the maximum takes just the doublings. */
  lemma {:induction false} ReachesRound(b: int, max: int, k: nat, left: nat)
    requires 0 < b < TWO_62 && k <= left
    requires forall j: nat :: j < k ==> Doubled(b, j) < TWO_62
    requires forall j: nat :: 1 <= j <= k ==> Doubled(b, j) < max
    ensures Rounds(b, max, left) == Rounds(Doubled(b, k), max, left - k)
    decreases k
  {
    if k > 0 {
      assert Doubled(b, 1) == 2 * b;
      forall j: nat | j < k ensures Doubled(2 * b, j) == Doubled(b, j + 1) {
        DoubledShift(b, j);
      }
      if k == 1 {
        assert Doubled(b, 1) == 2 * b < TWO_63;
      } else {
        assert Doubled(b, 1) < TWO_62;
        ReachesRound(2 * b, max, k - 1, left - 1);
      }
    }
  }

  /**
   computeBackoff(n).  The comment promises min(base * 2^(n-1), max); that is what the
   loop computes for every n exactly when the loop stays in range and base is not above
   the maximum, which the first backoff is not compared with.
   */
  function Backoff(base: int, max: int, n: int): int {
    if n <= 1 then base else Rounds(base, max, n - 1)
  }

  lemma FirstOutOfRange(b: int, max: int, k: nat) returns (j: nat)
    requires b > 0 && Doubled(b, k) < max && Doubled(b, k) >= TWO_62
    ensures j <= k && TWO_62 <= Doubled(b, j) < max && forall i: nat :: i < j ==> Doubled(b, i) < TWO_62
  {
    j := k;
    while j > 0 && Doubled(b, j - 1) >= TWO_62
      invariant j <= k && Doubled(b, j) >= TWO_62
    {
      j := j - 1;
    }
    forall i: nat | i <= k ensures Doubled(b, i) <= Doubled(b, k) {
      DoubledGrows(b, i, k);
    }
    forall i: nat | i < j ensures Doubled(b, i) < TWO_62 {
      DoubledGrows(b, i, j - 1);
    }
  }

  /** Doubling a value in [2^62, 2^63) wraps to a negative number. */
  lemma WrapsNegative(b: int)
    requires TWO_62 <= b < TWO_63
    ensures Wrap(2 * b) == 2 * b - TWO_64 < 0
  {
  }

  lemma OverflowShows(base: int, max: int) returns (n: int)
    requires 0 < base < TWO_63 && 0 < max < TWO_63 && !InRange(base, max)
    ensures n >= 2 && Backoff(base, max, n) < 0
  {
    if base >= TWO_62 {
      WrapsNegative(base);
      n := 2;
      assert Rounds(Wrap(2 * base), max, 0) == Wrap(2 * base);
    } else {
      var k: nat :| Doubled(base, k) < max && Doubled(base, k) >= TWO_62;
      var j := FirstOutOfRange(base, max, k);
      forall i: nat | 1 <= i <= j ensures Doubled(base, i) < max {
        DoubledGrows(base, i, j);
      }
      n := j + 2;
      ReachesRound(base, max, j, j + 1);
      WrapsNegative(Doubled(base, j));
      assert Rounds(Wrap(2 * Doubled(base, j)), max, 0) < 0;
    }
  }

  /** When the documented formula holds for every n: exactly for these configurations. */
  lemma BackoffFormula(base: int, max: int)
    requires 0 < base < TWO_63 && 0 < max < TWO_63
    ensures (forall n :: n >= 1 ==> Backoff(base, max, n) == Least(Doubled(base, n - 1), max))
            <==> base <= max && InRange(base, max)
  {
    if InRange(base, max) {
      forall n | n >= 2 ensures Backoff(base, max, n) == Least(Doubled(base, n - 1), max) {
        CappedDoubling(base, max, n - 1);
      }
      assert Backoff(base, max, 1) == base == Doubled(base, 1 - 1);
    } else {
      var n := OverflowShows(base, max);
      DoubledGrows(base, 0, n - 1);
      assert Backoff(base, max, n) != Least(Doubled(base, n - 1), max);
    }
  }

  /** A maximum of at most 2^62 is enough, and then the backoff never falls as crashes add up. */
  lemma BackoffMonotone(base: int, max: int, n: int, m: int)
    requires 0 < base <= max <= TWO_62 && base < TWO_62 && 1 <= n <= m
    ensures Backoff(base, max, n) == Least(Doubled(base, n - 1), max)
    ensures 0 < Backoff(base, max, n) <= Backoff(base, max, m) <= max
  {
    BackoffFormula(base, max);
    DoubledGrows(base, n - 1, m - 1);
  }

  // ---------------------------------------------------------------- the policy on values

  datatype Config = Config(baseBackoff: int, maxBackoff: int, crashThreshold: int, crashWindow: Time)

  datatype Policy = Policy(crashes: map<AgentId, seq<Time>>, consecutive: map<AgentId, int>)

  /** The entries not before the cutoff, in order. */
  function Recent(times: seq<Time>, cutoff: Time): seq<Time> {
    RecentOf(times, |times|, cutoff)
  }

  /** Those among the first `n`. */
  function RecentOf(times: seq<Time>, n: nat, cutoff: Time): seq<Time>
    requires n <= |times|
  {
    if n == 0 then [] else Keep(RecentOf(times, n - 1, cutoff), times[n - 1], cutoff)
  }

  function Keep(kept: seq<Time>, t: Time, cutoff: Time): seq<Time> {
    if t < cutoff then kept else kept + [t]
  }

  function CrashesOf(p: Policy, a: AgentId): seq<Time> {
    if a in p.crashes then p.crashes[a] else []
  }

  function ConsecutiveOf(p: Policy, a: AgentId): int {
    if a in p.consecutive then p.consecutive[a] else 0
  }

  /** RecordCrash. */
  function Crashed(c: Config, p: Policy, a: AgentId, now: Time): (Policy, Decision) {
    var recent := Recent(CrashesOf(p, a) + [now], now - c.crashWindow);
    var q := p.(crashes := p.crashes[a := recent]);
    if |recent| > c.crashThreshold then (q, Decision(false, 0))
    else
      var n := ConsecutiveOf(p, a) + 1;
      (q.(consecutive := q.consecutive[a := n]), Decision(true, Backoff(c.baseBackoff, c.maxBackoff, n)))
  }

  /** RecordSuccess. */
  function Succeeded(p: Policy, a: AgentId): Policy {
    p.(consecutive := p.consecutive[a := 0], crashes := p.crashes - {a})
  }

  // ---------------------------------------------------------------- the policy object

  class RestartPolicy {
    const config: Config
    var agentCrashes: map<AgentId, seq<Time>>
    var agentConsecutive: map<AgentId, int>

    ghost function View(): Policy
      reads this
    {
      Policy(agentCrashes, agentConsecutive)
    }

    constructor (c: Config)
      ensures config == c && View() == Policy(map[], map[])
    {
      config := c;
      agentCrashes, agentConsecutive := map[], map[];
    }

    method ComputeBackoff(consecutive: int) returns (backoff: int)
      ensures backoff == Backoff(config.baseBackoff, config.maxBackoff, consecutive)
    {
      backoff := config.baseBackoff;
      var i := 1;
      while i < consecutive
        invariant i >= 1 && (consecutive >= 1 ==> i <= consecutive)
        invariant Backoff(config.baseBackoff, config.maxBackoff, consecutive) ==
                  if consecutive <= 1 then backoff else Rounds(backoff, config.maxBackoff, consecutive - i)
      {
        backoff := Wrap(backoff * 2);
        if backoff >= config.maxBackoff {
          return config.maxBackoff;
        }
        i := i + 1;
      }
    }

    /** Drops the crashes before the cutoff. */
    static method Prune(crashes: seq<Time>, cutoff: Time) returns (recent: seq<Time>)
      ensures recent == Recent(crashes, cutoff)
    {
      recent := [];
      var i := 0;
      while i < |crashes|
        invariant 0 <= i <= |crashes| && recent == RecentOf(crashes, i, cutoff)
      {
        if crashes[i] >= cutoff {
          recent := recent + [crashes[i]];
        }
        i := i + 1;
      }
    }

    method RecordCrash(a: AgentId, now: Time) returns (d: Decision)
      modifies this
      ensures (View(), d) == Crashed(config, old(View()), a, now)
    {
      agentCrashes := agentCrashes[a := (if a in agentCrashes then agentCrashes[a] else []) + [now]];
      var recent := Prune(agentCrashes[a], now - config.crashWindow);
      agentCrashes := agentCrashes[a := recent];
      assert agentCrashes == old(agentCrashes)[a := recent];
      if |recent| > config.crashThreshold {
        return Decision(false, 0);
      }
      var n := (if a in agentConsecutive then agentConsecutive[a] else 0) + 1;
      agentConsecutive := agentConsecutive[a := n];
      var backoff := ComputeBackoff(n);
      d := Decision(true, backoff);
    }

    method RecordSuccess(a: AgentId)
      modifies this
      ensures View() == Succeeded(old(View()), a)
    {
      agentConsecutive := agentConsecutive[a := 0];
      agentCrashes := agentCrashes - {a};
    }
  }

  // ---------------------------------------------------------------- full history

  datatype Report = Crash(agent: AgentId, at: Time) | Success(agent: AgentId)

  /** The policy after a sequence of reports. */
  function PolicyAfter(c: Config, reports: seq<Report>): Policy {
    if reports == [] then Policy(map[], map[])
    else
      var p := PolicyAfter(c, reports[..|reports| - 1]);
      match reports[|reports| - 1]
      case Crash(a, t) => Crashed(c, p, a, t).0
      case Success(a) => Succeeded(p, a)
  }

  /** Every crash of the agent since its last success, pruned by nothing. */
  function History(reports: seq<Report>, a: AgentId): seq<Time> {
    if reports == [] then []
    else
      var h := History(reports[..|reports| - 1], a);
      match reports[|reports| - 1]
      case Crash(b, t) => if a == b then h + [t] else h
      case Success(b) => if a == b then [] else h
  }

  /** Whether the full history lets the agent restart after a crash at `now`. */
  predicate WithinThreshold(c: Config, reports: seq<Report>, a: AgentId, now: Time) {
    |Recent(History(reports, a) + [now], now - c.crashWindow)| <= c.crashThreshold
  }

  /** How many restarts the full history granted the agent since its last success. */
  function Granted(c: Config, reports: seq<Report>, a: AgentId): nat {
    if reports == [] then 0
    else
      var older := reports[..|reports| - 1];
      match reports[|reports| - 1]
      case Crash(b, t) =>
        if a == b && WithinThreshold(c, older, a, t) then Granted(c, older, a) + 1 else Granted(c, older, a)
      case Success(b) => if a == b then 0 else Granted(c, older, a)
  }

  /** Crashes are reported in the order of a monotone clock. */
  ghost predicate Monotone(reports: seq<Report>) {
    forall i, j :: 0 <= i < j < |reports| && reports[i].Crash? && reports[j].Crash? ==> reports[i].at <= reports[j].at
  }

  lemma {:induction false} RecentOfPrefix(times: seq<Time>, more: seq<Time>, n: nat, cutoff: Time)
    requires n <= |times|
    ensures RecentOf(times + more, n, cutoff) == RecentOf(times, n, cutoff)
  {
    if n > 0 {
      RecentOfPrefix(times, more, n - 1, cutoff);
    }
  }

  lemma RecentAppend(times: seq<Time>, t: Time, cutoff: Time)
    ensures Recent(times + [t], cutoff) == Keep(Recent(times, cutoff), t, cutoff)
  {
    RecentOfPrefix(times, [t], |times|, cutoff);
  }

  lemma {:induction false} RecentTwice(times: seq<Time>, n: nat, early: Time, late: Time)
    requires n <= |times| && early <= late
    ensures Recent(RecentOf(times, n, early), late) == RecentOf(times, n, late)
  {
    if n > 0 {
      RecentTwice(times, n - 1, early, late);
      RecentAppend(RecentOf(times, n - 1, early), times[n - 1], late);
    }
  }

  /** Pruning what was pruned before gives the same window as pruning the full history. */
  lemma PruneOnce(history: seq<Time>, pruned: seq<Time>, last: Time, now: Time, window: Time)
    requires pruned == Recent(history, last - window) && last <= now
    ensures Recent(pruned + [now], now - window) == Recent(history + [now], now - window)
  {
    RecentTwice(history, |history|, last - window, now - window);
    RecentAppend(pruned, now, now - window);
    RecentAppend(history, now, now - window);
  }

  lemma {:induction false} HistoryIsReported(reports: seq<Report>, a: AgentId, t: Time)
    requires t in History(reports, a)
    ensures Crash(a, t) in reports
  {
    if reports != [] {
      var older := reports[..|reports| - 1];
      if t in History(older, a) {
        HistoryIsReported(older, a, t);
        assert Crash(a, t) in older;
      }
    }
  }

  /** A crash changes the books of its agent only. */
  lemma CrashedView(c: Config, p: Policy, a: AgentId, now: Time, b: AgentId)
    ensures var (q, d) := Crashed(c, p, a, now);
            var recent := Recent(CrashesOf(p, a) + [now], now - c.crashWindow);
            && CrashesOf(q, b) == (if a == b then recent else CrashesOf(p, b))
            && ConsecutiveOf(q, b) == ConsecutiveOf(p, b) + (if a == b && |recent| <= c.crashThreshold then 1 else 0)
            && d.shouldRestart == (|recent| <= c.crashThreshold)
            && (d.shouldRestart ==> d.backoff == Backoff(c.baseBackoff, c.maxBackoff, ConsecutiveOf(p, a) + 1))
  {
  }

  lemma MonotonePrefix(older: seq<Report>, r: Report)
    requires Monotone(older + [r])
    ensures Monotone(older)
  {
    var all := older + [r];
    forall i, j | 0 <= i < j < |older| && older[i].Crash? && older[j].Crash? ensures older[i].at <= older[j].at {
      assert all[i] == older[i] && all[j] == older[j];
    }
  }

  lemma SucceededView(p: Policy, a: AgentId, b: AgentId)
    ensures CrashesOf(Succeeded(p, a), b) == (if a == b then [] else CrashesOf(p, b))
    ensures ConsecutiveOf(Succeeded(p, a), b) == (if a == b then 0 else ConsecutiveOf(p, b))
  {
  }

  /** The last crash in a history; with none the value does not matter. */
  function Last(history: seq<Time>): Time {
    if history == [] then 0 else history[|history| - 1]
  }

  /** The pruned list and the counter agree with a full history and a number of grants. */
  ghost predicate Matches(c: Config, p: Policy, a: AgentId, history: seq<Time>, granted: int) {
    && CrashesOf(p, a) == Recent(history, Last(history) - c.crashWindow)
    && ConsecutiveOf(p, a) == granted
  }

  lemma WindowAgrees(history: seq<Time>, pruned: seq<Time>, now: Time, window: Time)
    requires pruned == Recent(history, Last(history) - window) && (history != [] ==> Last(history) <= now)
    ensures Recent(pruned + [now], now - window) == Recent(history + [now], Last(history + [now]) - window)
  {
    if history == [] {
      assert pruned == history;
    } else {
      PruneOnce(history, pruned, Last(history), now, window);
    }
  }

  lemma MatchesOwnCrash(c: Config, p: Policy, a: AgentId, history: seq<Time>, granted: int, now: Time)
    requires Matches(c, p, a, history, granted) && (history != [] ==> Last(history) <= now)
    ensures var within := |Recent(history + [now], now - c.crashWindow)| <= c.crashThreshold;
            && Matches(c, Crashed(c, p, a, now).0, a, history + [now], if within then granted + 1 else granted)
            && Crashed(c, p, a, now).1.shouldRestart == within
            && (within ==> Crashed(c, p, a, now).1.backoff == Backoff(c.baseBackoff, c.maxBackoff, granted + 1))
  {
    CrashedView(c, p, a, now, a);
    assert Last(history + [now]) == now;
    WindowAgrees(history, CrashesOf(p, a), now, c.crashWindow);
  }

  lemma MatchesOtherCrash(c: Config, p: Policy, a: AgentId, history: seq<Time>, granted: int, b: AgentId, now: Time)
    requires Matches(c, p, a, history, granted) && a != b
    ensures Matches(c, Crashed(c, p, b, now).0, a, history, granted)
  {
    CrashedView(c, p, b, now, a);
  }

  ghost predicate Agrees(c: Config, reports: seq<Report>, a: AgentId) {
    Matches(c, PolicyAfter(c, reports), a, History(reports, a), Granted(c, reports, a))
  }

  /** Crashes come after those of the history. */
  lemma LastIsEarlier(older: seq<Report>, a: AgentId, now: Time)
    requires Monotone(older + [Crash(a, now)]) && History(older, a) != []
    ensures Last(History(older, a)) <= now
  {
    HistoryIsReported(older, a, Last(History(older, a)));
    var all := older + [Crash(a, now)];
    var i :| 0 <= i < |older| && older[i] == Crash(a, Last(History(older, a)));
    assert all[i] == older[i] && all[|older|] == Crash(a, now);
  }

  lemma AgreesStep(c: Config, reports: seq<Report>, older: seq<Report>, r: Report, a: AgentId)
    requires reports != [] && older == reports[..|reports| - 1] && r == reports[|reports| - 1]
    requires Monotone(reports) && Agrees(c, older, a)
    ensures Agrees(c, reports, a)
  {
    var p, h, g := PolicyAfter(c, older), History(older, a), Granted(c, older, a);
    if r.Crash? {
      if r.agent == a {
        if h != [] {
          assert reports == older + [Crash(a, r.at)];
          LastIsEarlier(older, a, r.at);
        }
        MatchesOwnCrash(c, p, a, h, g, r.at);
      } else {
        MatchesOtherCrash(c, p, a, h, g, r.agent, r.at);
      }
    } else {
      SucceededView(p, r.agent, a);
    }
  }

  /** The pruned list and the counter follow from the full history, whatever other agents do. */
  lemma {:induction false} HistoryAgrees(c: Config, reports: seq<Report>, a: AgentId)
    requires Monotone(reports)
    ensures Agrees(c, reports, a)
  {
    if reports != [] {
      var older, r := reports[..|reports| - 1], reports[|reports| - 1];
      assert reports == older + [r];
      MonotonePrefix(older, r);
      HistoryAgrees(c, older, a);
      AgreesStep(c, reports, older, r, a);
    }
  }

  lemma NextAgrees(c: Config, reports: seq<Report>, a: AgentId, now: Time)
    requires Monotone(reports + [Crash(a, now)])
    ensures var d := Crashed(c, PolicyAfter(c, reports), a, now).1;
            && (d.shouldRestart <==> WithinThreshold(c, reports, a, now))
            && (d.shouldRestart ==> d.backoff == Backoff(c.baseBackoff, c.maxBackoff, Granted(c, reports, a) + 1))
  {
    MonotonePrefix(reports, Crash(a, now));
    HistoryAgrees(c, reports, a);
    var p, h := PolicyAfter(c, reports), History(reports, a);
    if h != [] {
      LastIsEarlier(reports, a, now);
    }
    MatchesOwnCrash(c, p, a, h, Granted(c, reports, a), now);
  }

  // ---------------------------------------------------------------- what pruning keeps

  lemma {:induction false} RecentOfCounts(times: seq<Time>, n: nat, cutoff: Time, t: Time)
    requires n <= |times|
    ensures multiset(RecentOf(times, n, cutoff))[t] == if t < cutoff then 0 else multiset(times[..n])[t]
  {
    if n > 0 {
      RecentOfCounts(times, n - 1, cutoff, t);
      assert times[..n] == times[..n - 1] + [times[n - 1]];
    }
  }

  /** Pruning drops every time before the cutoff and keeps every other as often as it was there. */
  lemma PruningCounts(times: seq<Time>, cutoff: Time, t: Time)
    ensures multiset(Recent(times, cutoff))[t] == if t < cutoff then 0 else multiset(times)[t]
  {
    RecentOfCounts(times, |times|, cutoff, t);
    assert times[..|times|] == times;
  }

  ghost predicate Ordered(times: seq<Time>) {
    forall i, j :: 0 <= i < j < |times| ==> times[i] <= times[j]
  }

  lemma {:induction false} RecentOfSuffix(times: seq<Time>, n: nat, cutoff: Time) returns (m: nat)
    requires Ordered(times) && n <= |times|
    ensures m <= n && RecentOf(times, n, cutoff) == times[m..n]
    ensures forall i :: 0 <= i < n ==> (times[i] < cutoff <==> i < m)
  {
    if n == 0 {
      m := 0;
    } else {
      m := RecentOfSuffix(times, n - 1, cutoff);
      if times[n - 1] < cutoff {
        assert forall i :: 0 <= i < n ==> times[i] < cutoff;
        m := n;
      } else {
        assert times[m..n] == times[m..n - 1] + [times[n - 1]];
      }
    }
  }

  /** On times in order it keeps the suffix of exactly those not before the cutoff. */
  lemma PruningKeepsSuffix(times: seq<Time>, cutoff: Time) returns (m: nat)
    requires Ordered(times)
    ensures m <= |times| && Recent(times, cutoff) == times[m..]
    ensures forall i :: 0 <= i < |times| ==> (times[i] < cutoff <==> i < m)
  {
    m := RecentOfSuffix(times, |times|, cutoff);
    assert times[m..|times|] == times[m..];
  }

  // ---------------------------------------------------------------- the window in terms of the reports

  predicate IsCrash(reports: seq<Report>, a: AgentId, i: nat) {
    i < |reports| && reports[i].Crash? && reports[i].agent == a
  }

  /** The agent's last success is the report before index `k`, or it has had none and `k` is 0. */
  ghost predicate Since(reports: seq<Report>, a: AgentId, k: nat) {
    && k <= |reports| && (k > 0 ==> reports[k - 1] == Success(a))
    && forall i :: k <= i < |reports| ==> reports[i] != Success(a)
  }

  /** The crashes of the agent since report `k` that lie in the window ending with report `n`, itself included. */
  ghost function Window(c: Config, reports: seq<Report>, a: AgentId, k: nat, n: nat): set<nat>
    requires IsCrash(reports, a, n)
  {
    set j: nat | k <= j <= n && IsCrash(reports, a, j) && reports[j].at >= reports[n].at - c.crashWindow
  }

  /** The crashes since report `k` and before report `n` whose windows hold no more crashes than the threshold. */
  ghost function Grants(c: Config, reports: seq<Report>, a: AgentId, k: nat, n: nat): set<nat> {
    set i: nat | k <= i < n && IsCrash(reports, a, i) && |Window(c, reports, a, k, i)| <= c.crashThreshold
  }

  /** Where the entries of the agent's history are among the reports. */
  function Indices(reports: seq<Report>, a: AgentId): seq<nat> {
    if reports == [] then []
    else
      var older := reports[..|reports| - 1];
      match reports[|reports| - 1]
      case Crash(b, t) => if a == b then Indices(older, a) + [|older|] else Indices(older, a)
      case Success(b) => if a == b then [] else Indices(older, a)
  }

  ghost predicate Increasing(idx: seq<nat>) {
    forall i, j :: 0 <= i < j < |idx| ==> idx[i] < idx[j]
  }

  /** The entries of `idx` are crashes of the agent at the times `times`. */
  ghost predicate Located(reports: seq<Report>, a: AgentId, idx: seq<nat>, times: seq<Time>) {
    && |idx| == |times| && Increasing(idx)
    && forall j :: 0 <= j < |idx| ==> idx[j] < |reports| && reports[idx[j]] == Crash(a, times[j])
  }

  lemma SinceOlder(reports: seq<Report>, a: AgentId, k: nat)
    requires Since(reports, a, k) && reports != [] && reports[|reports| - 1] != Success(a)
    ensures Since(reports[..|reports| - 1], a, k)
  {
  }

  /** An index before the end means the same in a shorter list of reports. */
  lemma LocatedGrows(older: seq<Report>, r: Report, a: AgentId, idx: seq<nat>, times: seq<Time>)
    requires Located(older, a, idx, times)
    ensures Located(older + [r], a, idx, times)
  {
  }

  lemma {:induction false} IndicesLocate(reports: seq<Report>, a: AgentId, k: nat)
    requires Since(reports, a, k)
    ensures Located(reports, a, Indices(reports, a), History(reports, a))
    ensures forall i: nat :: i in Indices(reports, a) <==> k <= i && IsCrash(reports, a, i)
  {
    if reports != [] {
      var older, r := reports[..|reports| - 1], reports[|reports| - 1];
      assert reports == older + [r];
      if r != Success(a) {
        SinceOlder(reports, a, k);
        IndicesLocate(older, a, k);
        LocatedGrows(older, r, a, Indices(older, a), History(older, a));
        assert forall i: nat :: i < |older| ==> IsCrash(reports, a, i) == IsCrash(older, a, i);
      }
    }
  }

  lemma {:induction false} IncreasingSize(idx: seq<nat>, s: set<nat>)
    requires Increasing(idx) && forall i: nat :: i in idx <==> i in s
    ensures |idx| == |s|
  {
    if idx == [] {
      assert s == {};
    } else {
      var last := idx[|idx| - 1];
      var front := idx[..|idx| - 1];
      assert idx == front + [last];
      forall i: nat ensures i in front <==> i in s - {last} {
      }
      IncreasingSize(front, s - {last});
    }
  }

  lemma HistoryOrdered(reports: seq<Report>, a: AgentId, k: nat)
    requires Monotone(reports) && Since(reports, a, k)
    ensures Ordered(History(reports, a))
  {
    IndicesLocate(reports, a, k);
  }

  /** The suffix of the history that the window ending with the last crash keeps, as report indices. */
  lemma KeptIndices(c: Config, reports: seq<Report>, a: AgentId, k: nat, l: nat) returns (idx: seq<nat>)
    requires Monotone(reports) && Since(reports, a, k)
    requires k <= l && IsCrash(reports, a, l) && forall i :: l < i < |reports| ==> !IsCrash(reports, a, i)
    ensures Located(reports, a, idx, Recent(History(reports, a), reports[l].at - c.crashWindow))
    ensures forall i: nat :: i in idx <==> i in Window(c, reports, a, k, l)
  {
    var all, h, cutoff := Indices(reports, a), History(reports, a), reports[l].at - c.crashWindow;
    IndicesLocate(reports, a, k);
    HistoryOrdered(reports, a, k);
    var m := PruningKeepsSuffix(h, cutoff);
    idx := all[m..];
    forall i: nat | i in idx ensures i in Window(c, reports, a, k, l) {
      var j :| 0 <= j < |idx| && idx[j] == i;
      assert all[m + j] == i && i in all && reports[i] == Crash(a, h[m + j]) && h[m + j] >= cutoff;
    }
    forall i: nat | i in Window(c, reports, a, k, l) ensures i in idx {
      var j :| 0 <= j < |all| && all[j] == i;
      assert reports[i] == Crash(a, h[j]);
      assert h[j] >= cutoff && idx[j - m] == i;
    }
  }

  /** The number of crashes RecordCrash compares with the threshold is the size of the window. */
  lemma WindowSize(c: Config, reports: seq<Report>, a: AgentId, k: nat, now: Time)
    requires Monotone(reports + [Crash(a, now)]) && Since(reports, a, k)
    ensures |Recent(History(reports, a) + [now], now - c.crashWindow)|
            == |Window(c, reports + [Crash(a, now)], a, k, |reports|)|
  {
    var all := reports + [Crash(a, now)];
    assert all[..|all| - 1] == reports && Since(all, a, k);
    var idx := KeptIndices(c, all, a, k, |reports|);
    IncreasingSize(idx, Window(c, all, a, k, |reports|));
  }

  lemma WindowOlder(c: Config, reports: seq<Report>, r: Report, a: AgentId, k: nat, n: nat)
    requires IsCrash(reports, a, n)
    ensures IsCrash(reports + [r], a, n)
    ensures Window(c, reports + [r], a, k, n) == Window(c, reports, a, k, n)
  {
    var all := reports + [r];
    forall j: nat | j <= n ensures IsCrash(all, a, j) == IsCrash(reports, a, j) && all[j] == reports[j] {
    }
  }

  lemma GrantsOlder(c: Config, reports: seq<Report>, r: Report, a: AgentId, k: nat)
    ensures Grants(c, reports + [r], a, k, |reports|) == Grants(c, reports, a, k, |reports|)
  {
    var all := reports + [r];
    forall i: nat | i < |reports|
      ensures i in Grants(c, all, a, k, |reports|) <==> i in Grants(c, reports, a, k, |reports|)
    {
      assert IsCrash(all, a, i) == IsCrash(reports, a, i);
      if IsCrash(reports, a, i) {
        WindowOlder(c, reports, r, a, k, i);
      }
    }
  }

  lemma RestartsWithin(c: Config, reports: seq<Report>, a: AgentId, k: nat, now: Time)
    requires Monotone(reports + [Crash(a, now)]) && Since(reports, a, k)
    ensures WithinThreshold(c, reports, a, now)
            <==> |Window(c, reports + [Crash(a, now)], a, k, |reports|)| <= c.crashThreshold
  {
    WindowSize(c, reports, a, k, now);
  }

  /** The grants before a report and up to it. */
  lemma GrantsLast(c: Config, reports: seq<Report>, a: AgentId, k: nat, n: nat)
    requires k <= n
    ensures var before, after := Grants(c, reports, a, k, n), Grants(c, reports, a, k, n + 1);
            |after| == |before| + (if IsCrash(reports, a, n) && |Window(c, reports, a, k, n)| <= c.crashThreshold
                                   then 1 else 0)
  {
    var before, after := Grants(c, reports, a, k, n), Grants(c, reports, a, k, n + 1);
    forall i: nat ensures i in after <==> i in before || (i == n && n in after) {
    }
    if n in after {
      assert after == before + {n} && n !in before;
    } else {
      assert after == before;
    }
  }

  /** One more report is granted or not. */
  lemma GrantsStep(c: Config, older: seq<Report>, r: Report, a: AgentId, k: nat)
    requires Monotone(older + [r]) && Since(older, a, k)
    ensures var before, after := |Grants(c, older, a, k, |older|)|, |Grants(c, older + [r], a, k, |older| + 1)|;
            if r.Crash? && r.agent == a && WithinThreshold(c, older, a, r.at) then after == before + 1
            else after == before
  {
    GrantsOlder(c, older, r, a, k);
    GrantsLast(c, older + [r], a, k, |older|);
    if r.Crash? && r.agent == a {
      assert r == Crash(a, r.at);
      RestartsWithin(c, older, a, k, r.at);
    }
  }

  lemma {:induction false} GrantsAreGranted(c: Config, reports: seq<Report>, a: AgentId, k: nat)
    requires Monotone(reports) && Since(reports, a, k)
    ensures Granted(c, reports, a) == |Grants(c, reports, a, k, |reports|)|
  {
    if reports == [] || reports[|reports| - 1] == Success(a) {
      assert Grants(c, reports, a, k, |reports|) == {};
    } else {
      var older, r := reports[..|reports| - 1], reports[|reports| - 1];
      assert reports == older + [r];
      SinceOlder(reports, a, k);
      MonotonePrefix(older, r);
      GrantsAreGranted(c, older, a, k);
      GrantsStep(c, older, r, a, k);
    }
  }

  /** The last crash of the agent since report `k`. */
  predicate LastCrash(reports: seq<Report>, a: AgentId, k: nat, l: nat) {
    k <= l && IsCrash(reports, a, l) && forall i :: l < i < |reports| ==> !IsCrash(reports, a, i)
  }

  lemma LastOfHistory(reports: seq<Report>, a: AgentId, k: nat) returns (l: nat)
    requires Since(reports, a, k) && History(reports, a) != []
    ensures LastCrash(reports, a, k, l) && reports[l].at == Last(History(reports, a))
  {
    IndicesLocate(reports, a, k);
    var idx := Indices(reports, a);
    l := idx[|idx| - 1];
    assert l in idx;
    assert forall i :: i in idx ==> i <= l;
  }

  /**
   The sliding window in terms of the reports, whatever agents crash and succeed in between.
   The list kept for an agent is the list of its crashes since its last success that lie in
   the window ending with its last crash, each once and in order; and its counter is the
   number of crashes since that success whose windows were within the threshold.
   */
  lemma SlidingWindow(c: Config, reports: seq<Report>, a: AgentId, k: nat) returns (idx: seq<nat>)
    requires Monotone(reports) && Since(reports, a, k)
    ensures Located(reports, a, idx, CrashesOf(PolicyAfter(c, reports), a))
    ensures forall i :: i in idx ==> k <= i
    ensures forall l: nat, i: nat :: LastCrash(reports, a, k, l) ==> (i in idx <==> i in Window(c, reports, a, k, l))
    ensures ConsecutiveOf(PolicyAfter(c, reports), a) == |Grants(c, reports, a, k, |reports|)|
  {
    HistoryAgrees(c, reports, a);
    GrantsAreGranted(c, reports, a, k);
    IndicesLocate(reports, a, k);
    if History(reports, a) == [] {
      idx := [];
      assert forall l: nat :: IsCrash(reports, a, l) && k <= l ==> l in Indices(reports, a);
    } else {
      var last := LastOfHistory(reports, a, k);
      idx := KeptIndices(c, reports, a, k, last);
      forall l: nat | LastCrash(reports, a, k, l) ensures l == last {
      }
    }
  }

  lemma GrantedSince(c: Config, reports: seq<Report>, a: AgentId, k: nat, now: Time)
    requires Monotone(reports + [Crash(a, now)]) && Since(reports, a, k)
    ensures Granted(c, reports, a) == |Grants(c, reports, a, k, |reports|)|
  {
    MonotonePrefix(reports, Crash(a, now));
    GrantsAreGranted(c, reports, a, k);
  }

  /**
   What the next crash is answered: the circuit opens exactly when more crashes of the agent
   since its last success lie in the window than the threshold, this one included; otherwise
   the backoff is that of one more restart than were granted since that success.
   */
  lemma NextDecision(c: Config, reports: seq<Report>, a: AgentId, k: nat, now: Time)
    requires Monotone(reports + [Crash(a, now)]) && Since(reports, a, k)
    ensures var d := Crashed(c, PolicyAfter(c, reports), a, now).1;
            && (d.shouldRestart <==> |Window(c, reports + [Crash(a, now)], a, k, |reports|)| <= c.crashThreshold)
            && (d.shouldRestart ==>
                  d.backoff == Backoff(c.baseBackoff, c.maxBackoff, |Grants(c, reports, a, k, |reports|)| + 1))
  {
    NextAgrees(c, reports, a, now);
    RestartsWithin(c, reports, a, k, now);
    GrantedSince(c, reports, a, k, now);
  }

  /** Every list of reports has such a `k`. */
  lemma {:induction false} SinceExists(reports: seq<Report>, a: AgentId) returns (k: nat)
    ensures Since(reports, a, k)
  {
    k := |reports|;
    while k > 0 && reports[k - 1] != Success(a)
      invariant k <= |reports| && forall i :: k <= i < |reports| ==> reports[i] != Success(a)
    {
      k := k - 1;
    }
  }

  /** An agent whose crashes are further apart than the window is restarted every time. */
  lemma RareCrashesRestart(c: Config, reports: seq<Report>, a: AgentId, now: Time)
    requires Monotone(reports + [Crash(a, now)]) && c.crashThreshold >= 1
    requires forall i :: 0 <= i < |reports| && IsCrash(reports, a, i) ==> reports[i].at < now - c.crashWindow
    ensures Crashed(c, PolicyAfter(c, reports), a, now).1.shouldRestart
  {
    var k := SinceExists(reports, a);
    NextDecision(c, reports, a, k, now);
    var all := reports + [Crash(a, now)];
    var w := Window(c, all, a, k, |reports|);
    assert forall j: nat :: j < |reports| ==> IsCrash(all, a, j) == IsCrash(reports, a, j) && all[j] == reports[j];
    assert w <= {|reports|};
    AtMostOne(w, |reports|);
  }

  lemma AtMostOne(s: set<nat>, x: nat)
    requires s <= {x}
    ensures |s| <= 1
  {
    assert s == {} || s == {x};
  }
}
