/**
 Kahn's algorithm, level by level.  It fails exactly on cyclic graphs, and what
 it returns is the one layering by longest dependency chain.
 */
module TopologicalSort {
  import opened Types
  import opened Ordering
  import opened DagGraph

  ghost function Members(s: seq<NodeId>): set<NodeId> {
    set n | n in s
  }

  /** All nodes of the first levels. */
  ghost function Upto(levels: seq<seq<NodeId>>, k: nat): set<NodeId>
    requires k <= |levels|
  {
    if k == 0 then {} else Upto(levels, k - 1) + Members(levels[k - 1])
  }

  /** One level: sorted, new, ready, and not ready any earlier. */
  ghost predicate LevelOk(g: Graph, levels: seq<seq<NodeId>>, k: nat)
    requires k < |levels|
  {
    var level := levels[k];
    && level != [] && Sorted(level) && Distinct(level)
    && (forall n :: n in level ==> n in g.nodes && n !in Upto(levels, k))
    && (forall n, m :: n in level && DependsOn(g, n, m) ==> m in Upto(levels, k))
    && (k > 0 ==> forall n :: n in level ==> exists m :: m in levels[k - 1] && DependsOn(g, n, m))
  }

  /** A correct, possibly unfinished, layering. */
  ghost predicate Layers(g: Graph, levels: seq<seq<NodeId>>) {
    forall k :: 0 <= k < |levels| ==> LevelOk(g, levels, k)
  }

  /**
   What TopologicalSort promises: every node in one level, dependencies strictly
   earlier, and no node later than it has to be.
   */
  ghost predicate Layering(g: Graph, levels: seq<seq<NodeId>>) {
    Layers(g, levels) && Upto(levels, |levels|) == g.nodes.Keys
  }

  // ---------------------------------------------------------------- counting dependencies

  /** How many entries of `preds` lie outside `done`, duplicates counted. */
  ghost function Missing(preds: seq<NodeId>, done: set<NodeId>): nat {
    if preds == [] then 0
    else Missing(preds[1..], done) + if preds[0] in done then 0 else 1
  }

  lemma {:induction false} MissingZero(preds: seq<NodeId>, done: set<NodeId>)
    ensures Missing(preds, done) == 0 <==> forall m :: m in preds ==> m in done
  {
    if preds != [] {
      MissingZero(preds[1..], done);
      assert forall m :: m in preds <==> m == preds[0] || m in preds[1..];
    }
  }

  lemma {:induction false} MissingDrops(preds: seq<NodeId>, done: set<NodeId>, m: NodeId)
    requires m !in done
    ensures Missing(preds, done) == Missing(preds, done + {m}) + multiset(preds)[m]
  {
    if preds != [] {
      MissingDrops(preds[1..], done, m);
      assert preds == [preds[0]] + preds[1..];
    }
  }

  lemma {:induction false} MissingAll(preds: seq<NodeId>)
    ensures Missing(preds, {}) == |preds|
  {
    if preds != [] {
      MissingAll(preds[1..]);
    }
  }

  // ---------------------------------------------------------------- the algorithm

  /** Graph.inDegrees. */
  method InDegrees(g: Graph) returns (degrees: map<NodeId, int>)
    ensures degrees.Keys == g.predecessors.Keys
    ensures forall n :: n in degrees ==> degrees[n] == Missing(g.predecessors[n], {})
  {
    degrees := map[];
    var todo := g.predecessors.Keys;
    while todo != {}
      invariant todo <= g.predecessors.Keys && degrees.Keys == g.predecessors.Keys - todo
      invariant forall n :: n in degrees ==> degrees[n] == Missing(g.predecessors[n], {})
      decreases todo
    {
      var id :| id in todo;
      MissingAll(g.predecessors[id]);
      degrees := degrees[id := |g.predecessors[id]|];
      todo := todo - {id};
    }
  }

  /** The in-degrees left when `done` is processed and `extra` further entries were crossed out. */
  ghost predicate Degrees(g: Graph, inDeg: map<NodeId, int>, done: set<NodeId>, extra: multiset<NodeId>) {
    inDeg.Keys == g.nodes.Keys == g.predecessors.Keys
    && forall n :: n in inDeg ==> inDeg[n] == Missing(g.predecessors[n], done) - extra[n]
  }

  /** `next` lists the nodes outside `before` whose in-degree has reached zero. */
  ghost predicate NewlyReady(inDeg: map<NodeId, int>, before: set<NodeId>, next: seq<NodeId>) {
    && Distinct(next)
    && (forall n :: n in next <==> n in inDeg && inDeg[n] == 0 && n !in before)
  }

  lemma PrefixCount<T>(s: seq<T>, j: nat)
    requires j < |s|
    ensures multiset(s)[s[j]] >= multiset(s[..j + 1])[s[j]] == multiset(s[..j])[s[j]] + 1
  {
    assert s == s[..j + 1] + s[j + 1..];
    assert s[..j + 1] == s[..j] + [s[j]];
  }

  /** A node whose in-degree is hit through `m` depends on `m`, so it is not processed and was not ready. */
  lemma HitIsPending(g: Graph, done: set<NodeId>, m: NodeId, j: nat)
    requires WellFormed(g) && m in g.nodes && m !in done && j < |g.successors[m]|
    ensures var n := g.successors[m][j];
            && n in g.nodes && DependsOn(g, n, m)
            && Missing(g.predecessors[n], done) >= multiset(g.successors[m][..j])[n] + 1
  {
    var succs := g.successors[m];
    var n := succs[j];
    PrefixCount(succs, j);
    assert Entries(g.predecessors, n, m) == Entries(g.successors, m, n);
    assert m in multiset(g.predecessors[n]);
    MissingDrops(g.predecessors[n], done, m);
  }

  /** Crossing out all of `m`'s successor entries is the same as processing `m`. */
  lemma CrossedOut(g: Graph, inDeg: map<NodeId, int>, done: set<NodeId>, m: NodeId)
    requires WellFormed(g) && m in g.nodes && m !in done
    requires Degrees(g, inDeg, done, multiset(g.successors[m]))
    ensures Degrees(g, inDeg, done + {m}, multiset{})
  {
    forall n | n in inDeg ensures inDeg[n] == Missing(g.predecessors[n], done + {m}) {
      MissingDrops(g.predecessors[n], done, m);
      assert Entries(g.predecessors, n, m) == Entries(g.successors, m, n);
    }
  }

  /** The remaining in-degrees, and the nodes collected for the next level. */
  datatype Work = Work(inDeg: map<NodeId, int>, next: seq<NodeId>)

  /** One decrement. */
  function Cross(w: Work, n: NodeId): (r: Work)
    requires n in w.inDeg
    ensures r.inDeg.Keys == w.inDeg.Keys
  {
    Work(w.inDeg[n := w.inDeg[n] - 1], if w.inDeg[n] == 1 then w.next + [n] else w.next)
  }

  /** The work left after the first `j` entries of `succs` are crossed out. */
  function Crossed(succs: seq<NodeId>, w: Work, j: nat): (r: Work)
    requires j <= |succs| && forall n :: n in succs ==> n in w.inDeg
    ensures r.inDeg.Keys == w.inDeg.Keys
  {
    if j == 0 then w else Cross(Crossed(succs, w, j - 1), succs[j - 1])
  }

  /** The state of the innermost loop after `j` successors of `m`. */
  ghost predicate Releasing(g: Graph, m: NodeId, w: Work, done: set<NodeId>, before: set<NodeId>, j: nat)
    requires m in g.successors && j <= |g.successors[m]|
  {
    Degrees(g, w.inDeg, done, multiset(g.successors[m][..j])) && NewlyReady(w.inDeg, before, w.next)
  }

  lemma CrossReady(w: Work, before: set<NodeId>, n: NodeId)
    requires NewlyReady(w.inDeg, before, w.next) && n in w.inDeg && w.inDeg[n] >= 1 && n !in before
    ensures NewlyReady(Cross(w, n).inDeg, before, Cross(w, n).next)
  {
    assert n !in w.next;
  }

  /** A decrement hits a pending node, so it keeps the loop's state. */
  lemma CrossReleases(g: Graph, m: NodeId, w: Work, done: set<NodeId>, before: set<NodeId>, j: nat)
    requires WellFormed(g) && m in g.nodes && m !in done && j < |g.successors[m]|
    requires forall n, k :: n in before && DependsOn(g, n, k) ==> k in done
    requires Releasing(g, m, w, done, before, j) && g.successors[m][j] in w.inDeg
    ensures Releasing(g, m, Cross(w, g.successors[m][j]), done, before, j + 1)
  {
    var n := g.successors[m][j];
    HitIsPending(g, done, m, j);
    assert n !in before;
    CrossReady(w, before, n);
    assert g.successors[m][..j + 1] == g.successors[m][..j] + [n];
  }

  lemma StartReleasing(g: Graph, m: NodeId, w: Work, done: set<NodeId>, before: set<NodeId>)
    requires m in g.successors && Degrees(g, w.inDeg, done, multiset{}) && NewlyReady(w.inDeg, before, w.next)
    ensures Releasing(g, m, w, done, before, 0)
  {
    assert g.successors[m][..0] == [];
  }

  lemma EndReleasing(g: Graph, m: NodeId, w: Work, done: set<NodeId>, before: set<NodeId>)
    requires WellFormed(g) && m in g.nodes && m !in done
    requires Releasing(g, m, w, done, before, |g.successors[m]|)
    ensures Degrees(g, w.inDeg, done + {m}, multiset{}) && NewlyReady(w.inDeg, before, w.next)
  {
    assert g.successors[m][..|g.successors[m]|] == g.successors[m];
    CrossedOut(g, w.inDeg, done, m);
  }

  lemma CrossedReleases(g: Graph, m: NodeId, w: Work, done: set<NodeId>, before: set<NodeId>)
    requires WellFormed(g) && m in g.nodes && m !in done
    requires forall n :: n in g.successors[m] ==> n in w.inDeg
    requires forall n, k :: n in before && DependsOn(g, n, k) ==> k in done
    requires Degrees(g, w.inDeg, done, multiset{}) && NewlyReady(w.inDeg, before, w.next)
    ensures Releasing(g, m, Crossed(g.successors[m], w, |g.successors[m]|), done, before, |g.successors[m]|)
  {
    StartReleasing(g, m, w, done, before);
    var succs, i, u := g.successors[m], 0, w;
    while i < |succs|
      invariant 0 <= i <= |succs| && u == Crossed(succs, w, i) && Releasing(g, m, u, done, before, i)
    {
      CrossReleases(g, m, u, done, before, i);
      u := Cross(u, succs[i]);
      i := i + 1;
    }
  }

  /** The innermost loop: decrement every successor of a node, collect those that reach zero. */
  method ReleaseNode(succs: seq<NodeId>, inDeg0: map<NodeId, int>, next0: seq<NodeId>)
    returns (inDeg: map<NodeId, int>, next: seq<NodeId>)
    requires forall n :: n in succs ==> n in inDeg0
    ensures Work(inDeg, next) == Crossed(succs, Work(inDeg0, next0), |succs|)
  {
    inDeg, next := inDeg0, next0;
    var j := 0;
    while j < |succs|
      invariant 0 <= j <= |succs| && Work(inDeg, next) == Crossed(succs, Work(inDeg0, next0), j)
    {
      var succ := succs[j];
      inDeg := inDeg[succ := inDeg[succ] - 1];
      if inDeg[succ] == 0 {
        next := next + [succ];
      }
      j := j + 1;
    }
  }

  lemma OneMore(done: set<NodeId>, level: seq<NodeId>, i: nat)
    requires i < |level| && Distinct(level)
    ensures done + Members(level[..i]) + {level[i]} == done + Members(level[..i + 1])
    ensures level[i] !in Members(level[..i])
  {
    assert level[..i + 1] == level[..i] + [level[i]];
  }

  /** The middle loop: release all nodes of the current level. */
  method ReleaseLevel(g: Graph, level: seq<NodeId>, inDeg0: map<NodeId, int>, ghost done: set<NodeId>)
    returns (inDeg: map<NodeId, int>, next: seq<NodeId>)
    requires WellFormed(g) && Distinct(level) && Degrees(g, inDeg0, done, multiset{})
    requires forall n :: n in level ==> n in g.nodes && n !in done
    requires forall n, m :: n in done + Members(level) && DependsOn(g, n, m) ==> m in done
    requires forall n :: n in inDeg0 && inDeg0[n] == 0 ==> n in done + Members(level)
    ensures Degrees(g, inDeg, done + Members(level), multiset{})
    ensures NewlyReady(inDeg, done + Members(level), next)
  {
    inDeg, next := inDeg0, [];
    ghost var before := done + Members(level);
    ghost var gone := done;
    var i := 0;
    while i < |level|
      invariant 0 <= i <= |level| && gone == done + Members(level[..i])
      invariant Degrees(g, inDeg, gone, multiset{})
      invariant NewlyReady(inDeg, before, next)
    {
      OneMore(done, level, i);
      var succs := g.successors[level[i]];
      CrossedReleases(g, level[i], Work(inDeg, next), gone, before);
      inDeg, next := ReleaseNode(succs, inDeg, next);
      EndReleasing(g, level[i], Work(inDeg, next), gone, before);
      gone := gone + {level[i]};
      i := i + 1;
    }
    assert level[..i] == level;
  }

  /** A node that becomes ready with a level, and not before, depends on that level. */
  lemma ReadyIsCaused(g: Graph, done: set<NodeId>, level: seq<NodeId>, n: NodeId)
    requires n in g.predecessors
    requires Missing(g.predecessors[n], done) > 0 && Missing(g.predecessors[n], done + Members(level)) == 0
    ensures exists m :: m in level && DependsOn(g, n, m)
  {
    MissingZero(g.predecessors[n], done);
    MissingZero(g.predecessors[n], done + Members(level));
    var m :| m in g.predecessors[n] && m !in done;
    assert m in level;
  }

  // ---------------------------------------------------------------- the outer loop

  /** The loop invariant of TopologicalSort. */
  ghost predicate Sorting(g: Graph, levels: seq<seq<NodeId>>, inDeg: map<NodeId, int>, queue: seq<NodeId>,
                          done: set<NodeId>)
  {
    && Layers(g, levels) && done == Upto(levels, |levels|) && done <= g.nodes.Keys
    && Degrees(g, inDeg, done, multiset{})
    && Sorted(queue) && NewlyReady(inDeg, done, queue)
    && (forall n, m :: n in done && DependsOn(g, n, m) ==> m in done)
    && (levels != [] ==> forall n :: n in queue ==> exists m :: m in levels[|levels| - 1] && DependsOn(g, n, m))
  }

  lemma {:induction false} UptoPrefix(levels: seq<seq<NodeId>>, level: seq<NodeId>, k: nat)
    requires k <= |levels|
    ensures Upto(levels + [level], k) == Upto(levels, k)
  {
    if k > 0 {
      UptoPrefix(levels, level, k - 1);
    }
  }

  /** A queued node has no dependency left. */
  lemma QueuedIsReady(g: Graph, inDeg: map<NodeId, int>, done: set<NodeId>, n: NodeId, m: NodeId)
    requires Degrees(g, inDeg, done, multiset{}) && n in inDeg && inDeg[n] == 0 && DependsOn(g, n, m)
    ensures m in done
  {
    MissingZero(g.predecessors[n], done);
  }

  lemma LayersGrow(g: Graph, levels: seq<seq<NodeId>>, inDeg: map<NodeId, int>, queue: seq<NodeId>, done: set<NodeId>)
    requires Sorting(g, levels, inDeg, queue, done) && queue != []
    ensures Layers(g, levels + [queue]) && Upto(levels + [queue], |levels| + 1) == done + Members(queue)
  {
    var grown := levels + [queue];
    forall k | 0 <= k < |grown| ensures LevelOk(g, grown, k) {
      UptoPrefix(levels, queue, k);
      if k < |levels| {
        assert LevelOk(g, levels, k);
      } else {
        forall n, m | n in queue && DependsOn(g, n, m) ensures m in done {
          QueuedIsReady(g, inDeg, done, n, m);
        }
      }
    }
    UptoPrefix(levels, queue, |levels|);
  }

  lemma NextIsCaused(g: Graph, inDeg: map<NodeId, int>, queue: seq<NodeId>, done: set<NodeId>,
                     inDeg': map<NodeId, int>, n: NodeId)
    requires Degrees(g, inDeg, done, multiset{}) && NewlyReady(inDeg, done, queue)
    requires Degrees(g, inDeg', done + Members(queue), multiset{})
    requires n in inDeg' && inDeg'[n] == 0 && n !in done + Members(queue)
    ensures exists m :: m in queue && DependsOn(g, n, m)
  {
    assert inDeg[n] != 0;
    ReadyIsCaused(g, done, queue, n);
  }

  lemma SortedReady(inDeg: map<NodeId, int>, before: set<NodeId>, next: seq<NodeId>)
    requires NewlyReady(inDeg, before, next)
    ensures Sorted(Sort(next)) && NewlyReady(inDeg, before, Sort(next))
  {
    SortDistinct(next);
    SameMembers(Sort(next), next);
  }

  /** After a level is released, the sorted new queue continues the layering. */
  lemma NextLevel(g: Graph, levels: seq<seq<NodeId>>, inDeg: map<NodeId, int>, queue: seq<NodeId>, done: set<NodeId>,
                  inDeg': map<NodeId, int>, next: seq<NodeId>)
    requires WellFormed(g) && Sorting(g, levels, inDeg, queue, done) && queue != []
    requires Degrees(g, inDeg', done + Members(queue), multiset{}) && NewlyReady(inDeg', done + Members(queue), next)
    ensures Sorting(g, levels + [queue], inDeg', Sort(next), done + Members(queue))
  {
    LayersGrow(g, levels, inDeg, queue, done);
    SortedReady(inDeg', done + Members(queue), next);
    ReleaseReady(g, levels, inDeg, queue, done);
    forall n | n in Sort(next) ensures exists m :: m in queue && DependsOn(g, n, m) {
      NextIsCaused(g, inDeg, queue, done, inDeg', n);
    }
    assert (levels + [queue])[|levels|] == queue;
  }

  lemma {:induction false} MembersCount(s: seq<NodeId>)
    requires Distinct(s)
    ensures |Members(s)| == |s|
  {
    if s != [] {
      var n := |s| - 1;
      MembersCount(s[..n]);
      assert s == s[..n] + [s[n]];
      assert Members(s) == Members(s[..n]) + {s[n]};
      assert s[n] !in s[..n];
    }
  }

  /** The seeding loop: all nodes without dependencies, in no particular order. */
  method SeedQueue(inDeg: map<NodeId, int>) returns (queue: seq<NodeId>)
    ensures NewlyReady(inDeg, {}, queue)
  {
    queue := [];
    var todo := inDeg.Keys;
    while todo != {}
      invariant todo <= inDeg.Keys && Distinct(queue)
      invariant forall n :: n in queue <==> n in inDeg && n !in todo && inDeg[n] == 0
      decreases todo
    {
      var id :| id in todo;
      if inDeg[id] == 0 {
        queue := queue + [id];
      }
      todo := todo - {id};
    }
  }

  lemma StartSorting(g: Graph, inDeg: map<NodeId, int>, queue: seq<NodeId>)
    requires WellFormed(g) && Degrees(g, inDeg, {}, multiset{}) && NewlyReady(inDeg, {}, queue)
    ensures Sorting(g, [], inDeg, Sort(queue), {})
  {
    SortedReady(inDeg, {}, queue);
  }

  /** A level about to be released meets ReleaseLevel's precondition. */
  lemma ReleaseReady(g: Graph, levels: seq<seq<NodeId>>, inDeg: map<NodeId, int>, queue: seq<NodeId>, done: set<NodeId>)
    requires WellFormed(g) && Sorting(g, levels, inDeg, queue, done)
    ensures forall n :: n in queue ==> n in g.nodes && n !in done
    ensures forall n, m :: n in done + Members(queue) && DependsOn(g, n, m) ==> m in done
    ensures forall n :: n in inDeg && inDeg[n] == 0 ==> n in done + Members(queue)
  {
    forall n, m | n in done + Members(queue) && DependsOn(g, n, m) ensures m in done {
      if n in queue {
        QueuedIsReady(g, inDeg, done, n, m);
      }
    }
  }

  // ---------------------------------------------------------------- cycles

  lemma SubsetSize<T>(a: set<T>, b: set<T>)
    requires a <= b
    ensures |a| <= |b| && (|a| == |b| ==> a == b)
  {
    assert b == a + (b - a);
    assert |b| == |a| + |b - a|;
  }

  /** No node of a cycle ever gets into a level. */
  lemma {:induction false} CycleStaysOut(g: Graph, levels: seq<seq<NodeId>>, p: seq<NodeId>, k: nat, i: nat)
    requires Layers(g, levels) && Cycle(g, p) && k <= |levels| && i < |p|
    ensures p[i] !in Upto(levels, k)
  {
    if k > 0 {
      CycleStaysOut(g, levels, p, k - 1, i);
      var j := if i == 0 then |p| - 1 else i;
      assert DependsOn(g, p[j], p[j - 1]);
      CycleStaysOut(g, levels, p, k - 1, j - 1);
      assert LevelOk(g, levels, k - 1);
    }
  }

  ghost predicate WaitsFor(g: Graph, x: NodeId, rest: set<NodeId>) {
    exists m :: m in rest && DependsOn(g, x, m)
  }

  /** Every node of `rest` has a dependency inside `rest`. */
  ghost predicate Stuck(g: Graph, rest: set<NodeId>) {
    rest <= g.nodes.Keys && forall x {:trigger WaitsFor(g, x, rest)} :: x in rest ==> WaitsFor(g, x, rest)
  }

  lemma ChainGrows(g: Graph, q: seq<NodeId>, m: NodeId, n: NodeId)
    requires ChainTo(g, q, m) && DependsOn(g, n, m) && n in g.nodes
    ensures ChainTo(g, q + [n], n)
  {
  }

  /** Chains inside a stuck set get as long as one likes. */
  lemma {:induction false} LongChain(g: Graph, rest: set<NodeId>, n: NodeId, len: nat) returns (p: seq<NodeId>)
    requires Stuck(g, rest) && n in rest && len >= 1
    ensures ChainTo(g, p, n) && |p| == len && Members(p) <= rest
    decreases len
  {
    if len == 1 {
      p := [n];
    } else {
      assert WaitsFor(g, n, rest);
      var m :| m in rest && DependsOn(g, n, m);
      var q := LongChain(g, rest, m, len - 1);
      ChainGrows(g, q, m, n);
      p := q + [n];
      assert Members(p) == Members(q) + {n};
    }
  }

  lemma Subchain(g: Graph, p: seq<NodeId>, i: nat, j: nat)
    requires Chain(g, p) && i <= j < |p|
    ensures Chain(g, p[i..j + 1])
  {
    var c := p[i..j + 1];
    forall k | 0 <= k < |c| - 1 ensures DependsOn(g, c[k + 1], c[k]) {
      assert DependsOn(g, p[i + k + 1], p[i + k]);
    }
  }

  lemma StuckIsCyclic(g: Graph, rest: set<NodeId>, n: NodeId)
    requires Stuck(g, rest) && n in rest
    ensures Cyclic(g)
  {
    var p := LongChain(g, rest, n, |rest| + 1);
    assert !Distinct(p) by {
      if Distinct(p) {
        MembersCount(p);
        SubsetSize(Members(p), rest);
      }
    }
    var i, j :| 0 <= i < j < |p| && p[i] == p[j];
    Subchain(g, p, i, j);
    assert Cycle(g, p[i..j + 1]);
  }

  lemma LayeringIsAcyclic(g: Graph, levels: seq<seq<NodeId>>)
    requires Layering(g, levels)
    ensures !Cyclic(g)
  {
    forall p ensures !Cycle(g, p) {
      if Cycle(g, p) {
        CycleStaysOut(g, levels, p, |levels|, 0);
      }
    }
  }

  /** With an empty queue the unprocessed nodes wait for each other. */
  lemma LeftoversAreStuck(g: Graph, inDeg: map<NodeId, int>, done: set<NodeId>)
    requires WellFormed(g) && Degrees(g, inDeg, done, multiset{}) && NewlyReady(inDeg, done, [])
    ensures Stuck(g, g.nodes.Keys - done)
  {
    forall x | x in g.nodes.Keys - done ensures WaitsFor(g, x, g.nodes.Keys - done) {
      MissingZero(g.predecessors[x], done);
      assert inDeg[x] != 0;
      var m :| m in g.predecessors[x] && m !in done;
      assert m in g.nodes.Keys - done && DependsOn(g, x, m);
    }
  }

  lemma Leftover<T>(a: set<T>, b: set<T>) returns (x: T)
    requires a <= b && a != b
    ensures x in b - a
  {
    x :| x in b && x !in a;
  }

  lemma ShortfallIsCyclic(g: Graph, inDeg: map<NodeId, int>, done: set<NodeId>)
    requires WellFormed(g) && Degrees(g, inDeg, done, multiset{}) && NewlyReady(inDeg, done, [])
    requires done <= g.nodes.Keys && done != g.nodes.Keys
    ensures Cyclic(g)
  {
    var n := Leftover(done, g.nodes.Keys);
    LeftoversAreStuck(g, inDeg, done);
    StuckIsCyclic(g, g.nodes.Keys - done, n);
  }

  /** When the queue runs dry, a node is left over exactly if the graph has a cycle. */
  lemma SortEnds(g: Graph, levels: seq<seq<NodeId>>, inDeg: map<NodeId, int>, done: set<NodeId>)
    requires WellFormed(g) && Sorting(g, levels, inDeg, [], done)
    ensures |done| < |g.nodes.Keys| <==> Cyclic(g)
    ensures |done| == |g.nodes.Keys| ==> Layering(g, levels)
    ensures |done| <= |g.nodes.Keys|
  {
    SubsetSize(done, g.nodes.Keys);
    if done == g.nodes.Keys {
      LayeringIsAcyclic(g, levels);
    } else {
      ShortfallIsCyclic(g, inDeg, done);
    }
  }

  /** Each round processes at least one new node. */
  lemma LevelAdds(g: Graph, done: set<NodeId>, queue: seq<NodeId>)
    requires queue != [] && Distinct(queue) && forall n :: n in queue ==> n in g.nodes && n !in done
    ensures |done + Members(queue)| == |done| + |queue|
    ensures g.nodes.Keys - (done + Members(queue)) < g.nodes.Keys - done
  {
    MembersCount(queue);
    assert done !! Members(queue);
    assert queue[0] in g.nodes.Keys - done && queue[0] in Members(queue);
  }

  /** Kahn's algorithm. */
  method TopologicalSort(g: Graph) returns (r: Result<seq<seq<NodeId>>, GraphError>)
    requires WellFormed(g)
    ensures r.Ok? ==> Layering(g, r.value)
    ensures r.Err? ==> r.error == CycleDetected
    ensures r.Err? <==> Cyclic(g)
  {
    var inDeg := InDegrees(g);
    var totalNodes := |inDeg|;
    var queue := SeedQueue(inDeg);
    StartSorting(g, inDeg, queue);
    queue := Sort(queue);
    var levels: seq<seq<NodeId>> := [];
    var processed := 0;
    ghost var done: set<NodeId> := {};
    while queue != []
      invariant Sorting(g, levels, inDeg, queue, done) && processed == |done|
      decreases g.nodes.Keys - done
    {
      MembersCount(queue);
      ReleaseReady(g, levels, inDeg, queue, done);
      ghost var inDeg0 := inDeg;
      var next;
      inDeg, next := ReleaseLevel(g, queue, inDeg, done);
      NextLevel(g, levels, inDeg0, queue, done, inDeg, next);
      levels := levels + [queue];
      processed := processed + |queue|;
      LevelAdds(g, done, queue);
      done := done + Members(queue);
      queue := Sort(next);
    }
    SortEnds(g, levels, inDeg, done);
    assert totalNodes == |g.nodes.Keys|;
    if processed < totalNodes {
      r := Err(CycleDetected);
    } else {
      r := Ok(levels);
    }
  }

  // ---------------------------------------------------------------- the layering is canonical

  lemma {:induction false} UptoMember(levels: seq<seq<NodeId>>, k: nat, n: NodeId)
    requires k <= |levels|
    ensures n in Upto(levels, k) <==> exists i :: 0 <= i < k && n in levels[i]
  {
    if k > 0 {
      UptoMember(levels, k - 1, n);
      if n in levels[k - 1] {
        assert 0 <= k - 1 < k && n in levels[k - 1];
      }
    }
  }

  /** Each node is in one level. */
  lemma OneLevel(g: Graph, levels: seq<seq<NodeId>>, n: NodeId, i: nat, j: nat)
    requires Layers(g, levels) && i < |levels| && j < |levels| && n in levels[i] && n in levels[j]
    ensures i == j
  {
    UptoMember(levels, i, n);
    UptoMember(levels, j, n);
    assert LevelOk(g, levels, i) && LevelOk(g, levels, j);
  }

  /** A node in level `k` ends no chain of more than `k + 1` nodes. */
  lemma {:induction false} ChainsAreShort(g: Graph, levels: seq<seq<NodeId>>, p: seq<NodeId>, k: nat)
    requires Layers(g, levels) && k < |levels| && Chain(g, p) && p[|p| - 1] in levels[k]
    ensures |p| <= k + 1
    decreases k
  {
    if |p| > 1 {
      var q := p[..|p| - 1];
      var m := q[|q| - 1];
      assert DependsOn(g, p[|p| - 2 + 1], p[|p| - 2]);
      assert LevelOk(g, levels, k);
      UptoMember(levels, k, m);
      var i :| 0 <= i < k && m in levels[i];
      ChainsAreShort(g, levels, q, i);
    }
  }

  /** A node in level `k` does end a chain of `k + 1` nodes. */
  lemma {:induction false} ChainExists(g: Graph, levels: seq<seq<NodeId>>, n: NodeId, k: nat) returns (p: seq<NodeId>)
    requires Layers(g, levels) && k < |levels| && n in levels[k]
    ensures ChainTo(g, p, n) && |p| == k + 1
    decreases k
  {
    assert LevelOk(g, levels, k);
    if k == 0 {
      p := [n];
    } else {
      var m :| m in levels[k - 1] && DependsOn(g, n, m);
      var q := ChainExists(g, levels, m, k - 1);
      p := q + [n];
    }
  }

  /** The level index of a node is the number of dependencies on the longest chain that ends at it. */
  lemma LevelIsLongestChain(g: Graph, levels: seq<seq<NodeId>>, n: NodeId, k: nat)
    requires Layering(g, levels) && k < |levels|
    ensures n in levels[k] <==>
              && (exists p :: ChainTo(g, p, n) && |p| == k + 1)
              && (forall p :: ChainTo(g, p, n) ==> |p| <= k + 1)
  {
    if n in levels[k] {
      var q := ChainExists(g, levels, n, k);
      forall p | ChainTo(g, p, n) ensures |p| <= k + 1 {
        ChainsAreShort(g, levels, p, k);
      }
    } else if (exists p :: ChainTo(g, p, n) && |p| == k + 1) && (forall p :: ChainTo(g, p, n) ==> |p| <= k + 1) {
      var p :| ChainTo(g, p, n) && |p| == k + 1;
      UptoMember(levels, |levels|, n);
      var i :| 0 <= i < |levels| && n in levels[i];
      ChainsAreShort(g, levels, p, i);
      var q := ChainExists(g, levels, n, i);
    }
  }

  /** The same nodes with the same dependencies, however listed. */
  ghost predicate SameRelation(g: Graph, h: Graph) {
    g.nodes.Keys == h.nodes.Keys && forall n, m :: DependsOn(g, n, m) <==> DependsOn(h, n, m)
  }

  lemma SameChains(g: Graph, h: Graph, p: seq<NodeId>, n: NodeId)
    requires SameRelation(g, h)
    ensures ChainTo(g, p, n) <==> ChainTo(h, p, n)
  {
    assert forall i :: 0 <= i < |p| - 1 ==> (DependsOn(g, p[i + 1], p[i]) <==> DependsOn(h, p[i + 1], p[i]));
  }

  lemma {:induction false} LevelsAgree(g: Graph, l: seq<seq<NodeId>>, h: Graph, r: seq<seq<NodeId>>, k: nat)
    requires SameRelation(g, h) && Layering(g, l) && Layering(h, r) && k < |l|
    ensures k < |r| && l[k] == r[k]
  {
    assert LevelOk(g, l, k);
    var n := l[k][0];
    var p := ChainExists(g, l, n, k);
    SameChains(g, h, p, n);
    UptoMember(r, |r|, n);
    var i :| 0 <= i < |r| && n in r[i];
    ChainsAreShort(h, r, p, i);
    forall x ensures x in l[k] <==> x in r[k] {
      LevelIsLongestChain(g, l, x, k);
      LevelIsLongestChain(h, r, x, k);
      forall q { SameChains(g, h, q, x); }
    }
    assert LevelOk(h, r, k);
    SortedUnique(l[k], r[k]);
  }

  /**
   The whole output depends only on which nodes there are and which depends on
   which: not on the order of the spec, on repeated entries or on map iteration.
   */
  lemma Canonical(g: Graph, l: seq<seq<NodeId>>, h: Graph, r: seq<seq<NodeId>>)
    requires SameRelation(g, h) && Layering(g, l) && Layering(h, r)
    ensures l == r
  {
    forall k | 0 <= k < |l| ensures k < |r| && l[k] == r[k] {
      LevelsAgree(g, l, h, r, k);
    }
    if |r| > 0 {
      LevelsAgree(h, r, g, l, |r| - 1);
    }
  }
}
