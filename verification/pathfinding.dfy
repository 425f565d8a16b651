/**
 * The searches of search/pathfinding.py over a board that they only read: a
 * shortest-path search in which the player's own roads cost nothing, free road
 * slots cost one road each and other players' roads cannot be crossed; a
 * breadth-first search for the corners joined to the player's buildings by its
 * own roads; and the road-placement choice built on both.
 */
module Pathfinding {
  import opened Wrappers
  import opened Enums
  import opened Board
  import opened Strings
  import opened Walks

  // ---------------------------------------------------------------------------
  // Specification vocabulary
  // ---------------------------------------------------------------------------

  /** Corner v holds a building of the player. */
  predicate OwnedBy(b: BoardGraph, pid: PlayerId, v: VertexId) {
    v in b.vertices && b.vertices[v].owner == Some(pid)
  }

  /** The corners holding a building of the player. */
  ghost function OwnedSet(b: BoardGraph, pid: PlayerId): set<VertexId> {
    set v | v in b.vertices.Keys && OwnedBy(b, pid, v)
  }

  /** Corner v is reached from one of the player's buildings along the player's own roads. */
  ghost predicate InNetwork(b: BoardGraph, pid: PlayerId, v: VertexId) {
    exists s, es :: OwnedBy(b, pid, s) && WalkTo(b, pid, true, s, es) == Some(v)
  }

  /**
   * Walk (s, es) runs from a start to a target and needs no more new roads than
   * any other walk from a start to a target.
   */
  ghost predicate Cheapest(b: BoardGraph, pid: PlayerId, starts: set<VertexId>, targets: set<VertexId>,
                           s: VertexId, es: seq<EdgeId>) {
    && s in starts && WalkTo(b, pid, false, s, es).Some? && WalkTo(b, pid, false, s, es).value in targets
    && forall s', es' :: s' in starts && WalkTo(b, pid, false, s', es').Some? && WalkTo(b, pid, false, s', es').value in targets
         ==> |Built(b, es)| <= |Built(b, es')|
  }

  /** No walk leads from a start to a target. */
  ghost predicate Unreachable(b: BoardGraph, pid: PlayerId, starts: set<VertexId>, targets: set<VertexId>) {
    forall s, es :: s in starts && WalkTo(b, pid, false, s, es).Some? ==> WalkTo(b, pid, false, s, es).value !in targets
  }

  /** Some hex at corner v yields resource r. */
  predicate YieldsAt(b: BoardGraph, v: VertexId, r: Resource) {
    v in b.vertices && exists h :: h in b.vertices[v].hexIds && h in b.hexes && b.hexes[h].resource == Some(r)
  }

  function SetOf<T(!new)>(s: seq<T>): (r: set<T>)
    ensures forall x :: x in r <==> x in s
  {
    set x | x in s
  }

  /** s with its entry at index i taken out. */
  function RemoveAt<T(!new)>(s: seq<T>, i: nat): (r: seq<T>)
    requires i < |s|
    ensures |r| == |s| - 1
    ensures forall k :: 0 <= k < |r| ==> r[k] == if k < i then s[k] else s[k + 1]
    ensures forall x :: x in s && x != s[i] ==> x in r
  {
    s[..i] + s[i + 1..]
  }

  lemma TakeSnoc<T>(s: seq<T>, j: nat)
    requires j < |s|
    ensures s[..j + 1] == s[..j] + [s[j]]
  {
  }

  lemma CardRemove<T>(a: set<T>, c: set<T>, x: T)
    requires x in a && x !in c
    ensures |a - (c + {x})| < |a - c|
  {
    assert a - (c + {x}) == (a - c) - {x};
  }

  // ---------------------------------------------------------------------------
  // The heap of the shortest-path search
  // ---------------------------------------------------------------------------

  /** A heap entry: the roads still to build so far, the corner reached, and those roads. */
  datatype Entry = Entry(dist: nat, vertex: VertexId, path: seq<EdgeId>)

  /** Python's order on (distance, corner, roads) tuples, by which heappop picks. */
  predicate EntryLess(x: Entry, y: Entry) {
    || x.dist < y.dist
    || (x.dist == y.dist && (StrLess(x.vertex, y.vertex) || (x.vertex == y.vertex && LexLess(x.path, y.path))))
  }

  lemma EntryLessTransitive(x: Entry, y: Entry, z: Entry)
    requires EntryLess(x, y) && EntryLess(y, z)
    ensures EntryLess(x, z)
  {
    if StrLess(x.vertex, y.vertex) && StrLess(y.vertex, z.vertex) {
      LexLessTransitive(Codes(x.vertex), Codes(y.vertex), Codes(z.vertex));
    }
    if LexLess(x.path, y.path) && LexLess(y.path, z.path) {
      LexLessTransitive(x.path, y.path, z.path);
    }
  }

  lemma EntryLessIrreflexive(x: Entry)
    ensures !EntryLess(x, x)
  {
    LexLessIrreflexive(Codes(x.vertex));
    LexLessIrreflexive(x.path);
  }

  /** Two entries neither of which is below the other are equal, so heappop's choice is determined. */
  lemma MinimalEntriesEqual(x: Entry, y: Entry)
    requires !EntryLess(x, y) && !EntryLess(y, x)
    ensures x == y
  {
    if x.vertex != y.vertex {
      if Codes(x.vertex) == Codes(y.vertex) {
        CodesInjective(x.vertex, y.vertex);
      }
      LexLessTotal(Codes(x.vertex), Codes(y.vertex));
    }
    if x.path != y.path {
      LexLessTotal(x.path, y.path);
    }
  }

  /** heappop's choice: an entry no other entry is below. */
  method MinEntry(pq: seq<Entry>) returns (i: nat)
    requires |pq| > 0
    ensures i < |pq| && forall k :: 0 <= k < |pq| ==> !EntryLess(pq[k], pq[i])
  {
    i := 0;
    EntryLessIrreflexive(pq[0]);
    var k := 1;
    while k < |pq|
      invariant 0 <= i < k <= |pq|
      invariant forall j :: 0 <= j < k ==> !EntryLess(pq[j], pq[i])
    {
      if EntryLess(pq[k], pq[i]) {
        forall j | 0 <= j < k
          ensures !EntryLess(pq[j], pq[k])
        {
          if EntryLess(pq[j], pq[k]) {
            EntryLessTransitive(pq[j], pq[k], pq[i]);
          }
        }
        EntryLessIrreflexive(pq[k]);
        i := k;
      }
      k := k + 1;
    }
  }

  // ---------------------------------------------------------------------------
  // The invariant of the shortest-path search
  // ---------------------------------------------------------------------------

  /** Entry en is backed by the walk w from a start: it reaches en's corner and en's roads are those to build. */
  ghost predicate Backed(b: BoardGraph, pid: PlayerId, starts: set<VertexId>, en: Entry, w: (VertexId, seq<EdgeId>)) {
    w.0 in starts && WalkTo(b, pid, false, w.0, w.1) == Some(en.vertex) && Built(b, w.1) == en.path
    && en.dist == |en.path|
  }

  /** Every entry of the heap is backed by the walk at the same index of wit. */
  ghost predicate AllBacked(b: BoardGraph, pid: PlayerId, starts: set<VertexId>, pq: seq<Entry>, wit: seq<(VertexId, seq<EdgeId>)>) {
    |wit| == |pq| && forall k :: 0 <= k < |pq| ==> Backed(b, pid, starts, pq[k], wit[k])
  }

  lemma AllBackedRemove(b: BoardGraph, pid: PlayerId, starts: set<VertexId>, pq: seq<Entry>, wit: seq<(VertexId, seq<EdgeId>)>, i: nat)
    requires AllBacked(b, pid, starts, pq, wit) && i < |pq|
    ensures AllBacked(b, pid, starts, RemoveAt(pq, i), RemoveAt(wit, i))
  {
  }

  lemma AllBackedPush(b: BoardGraph, pid: PlayerId, starts: set<VertexId>, pq: seq<Entry>, wit: seq<(VertexId, seq<EdgeId>)>,
                      en: Entry, w: (VertexId, seq<EdgeId>))
    requires AllBacked(b, pid, starts, pq, wit) && Backed(b, pid, starts, en, w)
    ensures AllBacked(b, pid, starts, pq + [en], wit + [w])
  {
  }

  /** No walk from a start to v needs fewer than d new roads. */
  ghost predicate LowerBound(b: BoardGraph, pid: PlayerId, starts: set<VertexId>, v: VertexId, d: nat) {
    forall s, es :: s in starts && WalkTo(b, pid, false, s, es) == Some(v) ==> d <= |Built(b, es)|
  }

  /** The roads es at settled corner u have been relaxed: each usable one to an unsettled corner has an entry. */
  ghost predicate Relaxed(b: BoardGraph, pid: PlayerId, pq: seq<Entry>, visited: set<VertexId>, dist: map<VertexId, nat>,
                          u: VertexId, es: seq<EdgeId>)
    requires u in dist
  {
    forall e :: e in es && Usable(b, pid, false, e) && OtherEnd(b, e, u) !in visited ==>
      exists en :: en in pq && en.vertex == OtherEnd(b, e, u) && en.dist <= dist[u] + StepCost(b, e)
  }

  /** Every settled corner has its distance recorded and that distance is a lower bound. */
  ghost predicate Settled(b: BoardGraph, pid: PlayerId, starts: set<VertexId>, visited: set<VertexId>, dist: map<VertexId, nat>) {
    && dist.Keys == visited && visited <= b.vertices.Keys
    && forall u :: u in visited ==> LowerBound(b, pid, starts, u, dist[u])
  }

  /** Every unsettled start still has its initial entry. */
  ghost predicate StartsQueued(starts: set<VertexId>, pq: seq<Entry>, visited: set<VertexId>) {
    forall s :: s in starts && s !in visited ==> Entry(0, s, []) in pq
  }

  /** The loop invariant of the search apart from the backing walks. */
  ghost predicate Frontier(b: BoardGraph, pid: PlayerId, starts: set<VertexId>, pq: seq<Entry>, visited: set<VertexId>,
                           dist: map<VertexId, nat>)
    requires WellFormed(b)
  {
    && Settled(b, pid, starts, visited, dist)
    && StartsQueued(starts, pq, visited)
    && forall u :: u in visited ==> Relaxed(b, pid, pq, visited, dist, u, b.vertices[u].edgeIds)
  }

  /** Relaxation survives adding entries, settling more corners and dropping entries of settled corners. */
  lemma RelaxedMono(b: BoardGraph, pid: PlayerId, pq: seq<Entry>, pq': seq<Entry>, visited: set<VertexId>,
                    visited': set<VertexId>, dist: map<VertexId, nat>, dist': map<VertexId, nat>, u: VertexId, es: seq<EdgeId>)
    requires u in dist && u in dist' && dist'[u] == dist[u] && visited <= visited'
    requires forall en :: en in pq && en.vertex !in visited' ==> en in pq'
    requires Relaxed(b, pid, pq, visited, dist, u, es)
    ensures Relaxed(b, pid, pq', visited', dist', u, es)
  {
    forall e | e in es && Usable(b, pid, false, e) && OtherEnd(b, e, u) !in visited'
      ensures exists en :: en in pq' && en.vertex == OtherEnd(b, e, u) && en.dist <= dist'[u] + StepCost(b, e)
    {
      var en :| en in pq && en.vertex == OtherEnd(b, e, u) && en.dist <= dist[u] + StepCost(b, e);
      assert en in pq';
    }
  }

  /** Relaxing one more road e at u. */
  lemma RelaxedSnoc(b: BoardGraph, pid: PlayerId, pq: seq<Entry>, visited: set<VertexId>, dist: map<VertexId, nat>,
                    u: VertexId, es: seq<EdgeId>, e: EdgeId)
    requires u in dist && Relaxed(b, pid, pq, visited, dist, u, es)
    requires Usable(b, pid, false, e) && OtherEnd(b, e, u) !in visited ==>
      exists en :: en in pq && en.vertex == OtherEnd(b, e, u) && en.dist <= dist[u] + StepCost(b, e)
    ensures Relaxed(b, pid, pq, visited, dist, u, es + [e])
  {
  }

  /**
   * The heart of the search: a walk from a start to an unsettled corner passes an
   * entry in the heap that needs no more roads than the walk.
   */
  lemma {:induction false} FrontierBound(b: BoardGraph, pid: PlayerId, starts: set<VertexId>, pq: seq<Entry>,
                                         visited: set<VertexId>, dist: map<VertexId, nat>, s: VertexId, es: seq<EdgeId>)
    requires WellFormed(b) && Frontier(b, pid, starts, pq, visited, dist)
    requires s in starts && WalkTo(b, pid, false, s, es).Some? && WalkTo(b, pid, false, s, es).value !in visited
    ensures exists en :: en in pq && en.dist <= |Built(b, es)|
    decreases |es|
  {
    if es == [] {
      assert Entry(0, s, []) in pq;
    } else {
      var pre := es[..|es| - 1];
      var e := es[|es| - 1];
      assert es == pre + [e];
      var u := WalkTo(b, pid, false, s, pre).value;
      WalkToSnoc(b, pid, false, s, pre, e);
      if u !in visited {
        FrontierBound(b, pid, starts, pq, visited, dist, s, pre);
      } else {
        assert LowerBound(b, pid, starts, u, dist[u]);
        assert dist[u] <= |Built(b, pre)|;
        assert Relaxed(b, pid, pq, visited, dist, u, b.vertices[u].edgeIds);
        var en :| en in pq && en.vertex == OtherEnd(b, e, u) && en.dist <= dist[u] + StepCost(b, e);
      }
    }
  }

  /** The entry heappop picks needs no more roads than any walk to an unsettled corner. */
  lemma PoppedIsLowerBound(b: BoardGraph, pid: PlayerId, starts: set<VertexId>, pq: seq<Entry>,
                           visited: set<VertexId>, dist: map<VertexId, nat>, i: nat)
    requires WellFormed(b) && Frontier(b, pid, starts, pq, visited, dist)
    requires i < |pq| && forall k :: 0 <= k < |pq| ==> !EntryLess(pq[k], pq[i])
    ensures forall s, es :: s in starts && WalkTo(b, pid, false, s, es).Some? && WalkTo(b, pid, false, s, es).value !in visited
              ==> pq[i].dist <= |Built(b, es)|
  {
    forall s, es | s in starts && WalkTo(b, pid, false, s, es).Some? && WalkTo(b, pid, false, s, es).value !in visited
      ensures pq[i].dist <= |Built(b, es)|
    {
      FrontierBound(b, pid, starts, pq, visited, dist, s, es);
      var en :| en in pq && en.dist <= |Built(b, es)|;
      var k :| 0 <= k < |pq| && pq[k] == en;
      assert !EntryLess(pq[k], pq[i]);
    }
  }

  /** Settling the popped corner at its distance keeps the invariant for everything already settled. */
  lemma SettleKeepsFrontier(b: BoardGraph, pid: PlayerId, starts: set<VertexId>, pq: seq<Entry>,
                            visited: set<VertexId>, dist: map<VertexId, nat>, i: nat)
    requires WellFormed(b) && Frontier(b, pid, starts, pq, visited, dist)
    requires i < |pq| && pq[i].vertex !in visited && pq[i].vertex in b.vertices
    requires forall s, es :: s in starts && WalkTo(b, pid, false, s, es).Some? && WalkTo(b, pid, false, s, es).value !in visited
              ==> pq[i].dist <= |Built(b, es)|
    ensures Settled(b, pid, starts, visited + {pq[i].vertex}, dist[pq[i].vertex := pq[i].dist])
    ensures StartsQueued(starts, RemoveAt(pq, i), visited + {pq[i].vertex})
    ensures forall u :: u in visited ==>
      Relaxed(b, pid, RemoveAt(pq, i), visited + {pq[i].vertex}, dist[pq[i].vertex := pq[i].dist], u, b.vertices[u].edgeIds)
  {
    var v := pq[i].vertex;
    var visited' := visited + {v};
    var dist' := dist[v := pq[i].dist];
    var pq' := RemoveAt(pq, i);
    forall u | u in visited'
      ensures LowerBound(b, pid, starts, u, dist'[u])
    {
      if u != v {
        assert LowerBound(b, pid, starts, u, dist[u]);
      }
    }
    forall u | u in visited
      ensures Relaxed(b, pid, pq', visited', dist', u, b.vertices[u].edgeIds)
    {
      RelaxedMono(b, pid, pq, pq', visited, visited', dist, dist', u, b.vertices[u].edgeIds);
    }
  }

  /** Dropping an entry of an already settled corner keeps the invariant. */
  lemma SkipKeepsFrontier(b: BoardGraph, pid: PlayerId, starts: set<VertexId>, pq: seq<Entry>,
                          visited: set<VertexId>, dist: map<VertexId, nat>, i: nat)
    requires WellFormed(b) && Frontier(b, pid, starts, pq, visited, dist)
    requires i < |pq| && pq[i].vertex in visited
    ensures Frontier(b, pid, starts, RemoveAt(pq, i), visited, dist)
  {
    forall u | u in visited
      ensures Relaxed(b, pid, RemoveAt(pq, i), visited, dist, u, b.vertices[u].edgeIds)
    {
      RelaxedMono(b, pid, pq, RemoveAt(pq, i), visited, visited, dist, dist, u, b.vertices[u].edgeIds);
    }
  }

  // ---------------------------------------------------------------------------
  // _dijkstra_shortest_path
  // ---------------------------------------------------------------------------

  /**
   * _dijkstra_shortest_path: the roads to build along a cheapest walk from some
   * start to some target, with their number, or None when every target is cut off
   * by other players' roads. The ghost results are the walk found.
   */
  method DijkstraShortestPath(b: BoardGraph, starts: seq<VertexId>, targets: seq<VertexId>, pid: PlayerId)
    returns (r: Option<(seq<EdgeId>, nat)>, ghost s: VertexId, ghost es: seq<EdgeId>)
    requires WellFormed(b)
    requires forall v :: v in starts ==> v in b.vertices
    ensures r.Some? ==> r.value.1 == |r.value.0|
    ensures r.Some? ==> Cheapest(b, pid, SetOf(starts), SetOf(targets), s, es) && r.value.0 == Built(b, es)
    ensures r.None? ==> Unreachable(b, pid, SetOf(starts), SetOf(targets))
  {
    ghost var st := SetOf(starts);
    var visited: set<VertexId> := {};
    ghost var dist: map<VertexId, nat> := map[];
    var targetSet := SetOf(targets);
    s, es := "", [];
    var pq: seq<Entry>;
    ghost var wit: seq<(VertexId, seq<EdgeId>)>;
    pq, wit := QueueStarts(b, pid, starts);
    while |pq| > 0
      invariant AllBacked(b, pid, st, pq, wit)
      invariant Frontier(b, pid, st, pq, visited, dist)
      invariant forall t :: t in targetSet ==> t !in visited
      decreases |b.vertices.Keys - visited|, |pq|
    {
      var hit, m;
      ghost var w, visited0;
      visited0 := visited;
      hit, m, w, pq, wit, visited, dist := PopStep(b, pid, st, targetSet, pq, wit, visited, dist);
      if hit {
        HitIsCheapest(b, pid, st, targetSet, visited0, m, w);
        r, s, es := Some((m.path, m.dist)), w.0, w.1;
        return;
      }
    }
    r := None;
    ExhaustedUnreachable(b, pid, st, targetSet, visited, dist);
  }

  /** Once the heap is empty, no target is reachable. */
  lemma ExhaustedUnreachable(b: BoardGraph, pid: PlayerId, st: set<VertexId>, targetSet: set<VertexId>,
                             visited: set<VertexId>, dist: map<VertexId, nat>)
    requires WellFormed(b) && Frontier(b, pid, st, [], visited, dist)
    requires forall t :: t in targetSet ==> t !in visited
    ensures Unreachable(b, pid, st, targetSet)
  {
    forall x, xs | x in st && WalkTo(b, pid, false, x, xs).Some?
      ensures WalkTo(b, pid, false, x, xs).value !in targetSet
    {
      if WalkTo(b, pid, false, x, xs).value !in visited {
        FrontierBound(b, pid, st, [], visited, dist, x, xs);
      }
    }
  }

  /** The heap before the loop: one entry per start, at no cost and with no roads. */
  method QueueStarts(b: BoardGraph, pid: PlayerId, starts: seq<VertexId>)
    returns (pq: seq<Entry>, ghost wit: seq<(VertexId, seq<EdgeId>)>)
    requires WellFormed(b) && forall v :: v in starts ==> v in b.vertices
    ensures AllBacked(b, pid, SetOf(starts), pq, wit)
    ensures Frontier(b, pid, SetOf(starts), pq, {}, map[])
  {
    pq, wit := [], [];
    var n := 0;
    while n < |starts|
      invariant 0 <= n <= |starts|
      invariant AllBacked(b, pid, SetOf(starts), pq, wit)
      invariant forall k :: 0 <= k < n ==> Entry(0, starts[k], []) in pq
    {
      AllBackedPush(b, pid, SetOf(starts), pq, wit, Entry(0, starts[n], []), (starts[n], []));
      pq := pq + [Entry(0, starts[n], [])];
      wit := wit + [(starts[n], [])];
      n := n + 1;
    }
    forall x | x in SetOf(starts)
      ensures Entry(0, x, []) in pq
    {
      var k :| 0 <= k < |starts| && starts[k] == x;
    }
  }

  /** A target reached by the least entry of the heap is reached by a cheapest walk. */
  lemma HitIsCheapest(b: BoardGraph, pid: PlayerId, st: set<VertexId>, targetSet: set<VertexId>, visited: set<VertexId>,
                      m: Entry, w: (VertexId, seq<EdgeId>))
    requires Backed(b, pid, st, m, w) && m.vertex in targetSet
    requires forall t :: t in targetSet ==> t !in visited
    requires forall s, es :: s in st && WalkTo(b, pid, false, s, es).Some? && WalkTo(b, pid, false, s, es).value !in visited
               ==> m.dist <= |Built(b, es)|
    ensures Cheapest(b, pid, st, targetSet, w.0, w.1) && m.path == Built(b, w.1) && m.dist == |m.path|
  {
  }

  /**
   * One round of the outer loop: pop the least entry; skip it when its corner is
   * settled, otherwise settle that corner and either report it as a target
   * reached or relax the roads around it.
   */
  method PopStep(b: BoardGraph, pid: PlayerId, ghost st: set<VertexId>, targetSet: set<VertexId>, pq0: seq<Entry>,
                 ghost wit0: seq<(VertexId, seq<EdgeId>)>, visited0: set<VertexId>, ghost dist0: map<VertexId, nat>)
    returns (hit: bool, m: Entry, ghost w: (VertexId, seq<EdgeId>), pq: seq<Entry>, ghost wit: seq<(VertexId, seq<EdgeId>)>,
             visited: set<VertexId>, ghost dist: map<VertexId, nat>)
    requires WellFormed(b) && |pq0| > 0
    requires AllBacked(b, pid, st, pq0, wit0) && Frontier(b, pid, st, pq0, visited0, dist0)
    requires forall t :: t in targetSet ==> t !in visited0
    ensures hit ==> Backed(b, pid, st, m, w) && m.vertex in targetSet
    ensures hit ==> forall s, es :: s in st && WalkTo(b, pid, false, s, es).Some? && WalkTo(b, pid, false, s, es).value !in visited0
                      ==> m.dist <= |Built(b, es)|
    ensures !hit ==> AllBacked(b, pid, st, pq, wit) && Frontier(b, pid, st, pq, visited, dist)
    ensures !hit ==> forall t :: t in targetSet ==> t !in visited
    ensures !hit ==> visited0 <= visited
    ensures !hit ==> |b.vertices.Keys - visited| < |b.vertices.Keys - visited0| || (visited == visited0 && |pq| < |pq0|)
  {
    var i := MinEntry(pq0);
    m := pq0[i];
    w := wit0[i];
    assert Backed(b, pid, st, m, w);
    WalkToInVertices(b, pid, false, w.0, w.1);
    AllBackedRemove(b, pid, st, pq0, wit0, i);
    pq, wit, visited, dist := RemoveAt(pq0, i), RemoveAt(wit0, i), visited0, dist0;
    if m.vertex in visited0 {
      SkipKeepsFrontier(b, pid, st, pq0, visited0, dist0, i);
      return false, m, w, pq, wit, visited, dist;
    }
    PoppedIsLowerBound(b, pid, st, pq0, visited0, dist0, i);
    SettleKeepsFrontier(b, pid, st, pq0, visited0, dist0, i);
    CardRemove(b.vertices.Keys, visited0, m.vertex);
    visited := visited0 + {m.vertex};
    dist := dist0[m.vertex := m.dist];
    if m.vertex in targetSet {
      return true, m, w, pq, wit, visited, dist;
    }
    hit := false;
    pq, wit := Relax(b, pid, st, pq, wit, visited, dist, visited0, m, w);
  }

  /**
   * The inner loop of the search: from the corner m.vertex just settled, push an
   * entry for each road to an unsettled corner, at no cost along the player's own
   * road and at one more road along a free slot; other players' roads are skipped.
   */
  method Relax(b: BoardGraph, pid: PlayerId, ghost st: set<VertexId>, pq0: seq<Entry>,
               ghost wit0: seq<(VertexId, seq<EdgeId>)>, visited: set<VertexId>, ghost dist: map<VertexId, nat>,
               ghost before: set<VertexId>, m: Entry, ghost w: (VertexId, seq<EdgeId>))
    returns (pq: seq<Entry>, ghost wit: seq<(VertexId, seq<EdgeId>)>)
    requires WellFormed(b) && m.vertex in b.vertices && m.vertex !in before
    requires visited == before + {m.vertex} && dist.Keys == visited && dist[m.vertex] == m.dist
    requires Backed(b, pid, st, m, w) && AllBacked(b, pid, st, pq0, wit0)
    requires Settled(b, pid, st, visited, dist) && StartsQueued(st, pq0, visited)
    requires forall u :: u in before ==> Relaxed(b, pid, pq0, visited, dist, u, b.vertices[u].edgeIds)
    ensures AllBacked(b, pid, st, pq, wit)
    ensures Frontier(b, pid, st, pq, visited, dist)
  {
    pq, wit := pq0, wit0;
    var u := m.vertex;
    var ids := b.vertices[u].edgeIds;
    var j := 0;
    while j < |ids|
      invariant 0 <= j <= |ids|
      invariant AllBacked(b, pid, st, pq, wit)
      invariant StartsQueued(st, pq, visited)
      invariant forall x :: x in before ==> Relaxed(b, pid, pq, visited, dist, x, b.vertices[x].edgeIds)
      invariant Relaxed(b, pid, pq, visited, dist, u, ids[..j])
    {
      ghost var pqj := pq;
      pq, wit := RelaxEdge(b, pid, st, pq, wit, visited, dist, m, w, ids[j]);
      forall x | x in before
        ensures Relaxed(b, pid, pq, visited, dist, x, b.vertices[x].edgeIds)
      {
        RelaxedMono(b, pid, pqj, pq, visited, visited, dist, dist, x, b.vertices[x].edgeIds);
      }
      RelaxedMono(b, pid, pqj, pq, visited, visited, dist, dist, u, ids[..j]);
      RelaxedSnoc(b, pid, pq, visited, dist, u, ids[..j], ids[j]);
      TakeSnoc(ids, j);
      j := j + 1;
    }
    assert ids[..j] == ids;
  }

  /** One round of the inner loop: the road e at the settled corner m.vertex. */
  method RelaxEdge(b: BoardGraph, pid: PlayerId, ghost st: set<VertexId>, pq0: seq<Entry>,
                   ghost wit0: seq<(VertexId, seq<EdgeId>)>, visited: set<VertexId>, ghost dist: map<VertexId, nat>,
                   m: Entry, ghost w: (VertexId, seq<EdgeId>), e: EdgeId)
    returns (pq: seq<Entry>, ghost wit: seq<(VertexId, seq<EdgeId>)>)
    requires WellFormed(b) && m.vertex in b.vertices && e in b.vertices[m.vertex].edgeIds
    requires m.vertex in dist && dist[m.vertex] == m.dist
    requires Backed(b, pid, st, m, w) && AllBacked(b, pid, st, pq0, wit0)
    ensures AllBacked(b, pid, st, pq, wit)
    ensures forall en :: en in pq0 ==> en in pq
    ensures Usable(b, pid, false, e) && OtherEnd(b, e, m.vertex) !in visited ==>
      exists en :: en in pq && en.vertex == OtherEnd(b, e, m.vertex) && en.dist <= dist[m.vertex] + StepCost(b, e)
  {
    pq, wit := pq0, wit0;
    var edge := b.edges[e];
    var other := OtherEnd(b, e, m.vertex);
    if other in visited {
      return;
    }
    WalkToSnoc(b, pid, false, w.0, w.1, e);
    var en;
    if edge.owner == Some(pid) {
      en := Entry(m.dist, other, m.path);
    } else {
      if edge.owner.Some? {
        return;
      }
      en := Entry(m.dist + 1, other, m.path + [e]);
    }
    AllBackedPush(b, pid, st, pq, wit, en, (w.0, w.1 + [e]));
    pq := pq + [en];
    wit := wit + [(w.0, w.1 + [e])];
    assert pq[|pq| - 1] == en;
  }

  // ---------------------------------------------------------------------------
  // get_player_connected_vertices
  // ---------------------------------------------------------------------------

  /** Each corner of c is reached from a building of the player along its own roads, by the walk via[v]. */
  ghost predicate Witnessed(b: BoardGraph, pid: PlayerId, via: map<VertexId, (VertexId, seq<EdgeId>)>, c: set<VertexId>) {
    forall v :: v in c ==>
      v in via && OwnedBy(b, pid, via[v].0)
      && WalkTo(b, pid, true, via[v].0, via[v].1) == Some(v)
  }

  /** Every road of the player at corner u leads into c. */
  ghost predicate ClosedAt(b: BoardGraph, pid: PlayerId, c: set<VertexId>, u: VertexId) {
    u in b.vertices && forall e :: e in b.vertices[u].edgeIds && Usable(b, pid, true, e) ==> OtherEnd(b, e, u) in c
  }

  /** A set holding the player's buildings and closed under its roads holds its whole network. */
  lemma {:induction false} ClosedHoldsNetwork(b: BoardGraph, pid: PlayerId, c: set<VertexId>, s: VertexId, es: seq<EdgeId>)
    requires OwnedSet(b, pid) <= c
    requires forall u {:trigger ClosedAt(b, pid, c, u)} :: u in c ==> ClosedAt(b, pid, c, u)
    requires OwnedBy(b, pid, s) && WalkTo(b, pid, true, s, es).Some?
    ensures WalkTo(b, pid, true, s, es).value in c
    decreases |es|
  {
    if es == [] {
      assert s in OwnedSet(b, pid);
    } else {
      ClosedHoldsNetwork(b, pid, c, s, es[..|es| - 1]);
      var u := WalkTo(b, pid, true, s, es[..|es| - 1]).value;
      assert ClosedAt(b, pid, c, u);
    }
  }

  /** Extending the walk to cur by one of the player's roads there witnesses the far corner. */
  lemma WitnessedAdd(b: BoardGraph, pid: PlayerId, via: map<VertexId, (VertexId, seq<EdgeId>)>, c: set<VertexId>,
                     cur: VertexId, e: EdgeId)
    requires Witnessed(b, pid, via, c) && cur in c && cur in b.vertices
    requires e in b.vertices[cur].edgeIds && Usable(b, pid, true, e)
    ensures Witnessed(b, pid, via[OtherEnd(b, e, cur) := (via[cur].0, via[cur].1 + [e])], c + {OtherEnd(b, e, cur)})
  {
    WalkToSnoc(b, pid, true, via[cur].0, via[cur].1, e);
  }

  /** Growing a subset of a shrinks what of a lies outside it. */
  lemma CardGrow<T>(a: set<T>, c0: set<T>, c: set<T>)
    requires c0 <= c <= a && c != c0
    ensures |a - c| < |a - c0|
  {
    var x :| x in c && x !in c0;
    assert a - c0 == (a - c) + (c - c0);
    assert (a - c) * (c - c0) == {};
    assert x in c - c0;
  }

  lemma ClosedAtMono(b: BoardGraph, pid: PlayerId, c: set<VertexId>, c': set<VertexId>, u: VertexId)
    requires c <= c' && ClosedAt(b, pid, c, u)
    ensures ClosedAt(b, pid, c', u)
  {
  }

  /** Python's list(s): the members of s, each once, in an order the language leaves unspecified. */
  method ListOf(s: set<VertexId>) returns (r: seq<VertexId>)
    ensures Distinct(r)
    ensures forall v :: v in r <==> v in s
  {
    r := [];
    var rest := s;
    while rest != {}
      invariant rest <= s
      invariant forall v :: v in r <==> v in s && v !in rest
      invariant Distinct(r)
      decreases |rest|
    {
      var v :| v in rest;
      r := r + [v];
      rest := rest - {v};
    }
  }

  /**
   * The invariant of the breadth-first search: the deque holds found corners;
   * every found corner is a corner of the network, witnessed by via; every
   * building of the player is found; and every found corner that has left the
   * deque has had its roads followed.
   */
  ghost predicate Searching(b: BoardGraph, pid: PlayerId, connected: set<VertexId>, queue: seq<VertexId>,
                            via: map<VertexId, (VertexId, seq<EdgeId>)>) {
    && (forall v :: v in queue ==> v in connected)
    && connected <= b.vertices.Keys && Witnessed(b, pid, via, connected)
    && OwnedSet(b, pid) <= connected
    && forall u {:trigger ClosedAt(b, pid, connected, u)} :: u in connected && u !in queue ==> ClosedAt(b, pid, connected, u)
  }

  /** When the deque is empty the corners found are exactly the network. */
  lemma SearchComplete(b: BoardGraph, pid: PlayerId, connected: set<VertexId>, via: map<VertexId, (VertexId, seq<EdgeId>)>)
    requires Searching(b, pid, connected, [], via)
    ensures forall v :: v in connected <==> InNetwork(b, pid, v)
  {
    forall v | InNetwork(b, pid, v)
      ensures v in connected
    {
      var s, es :| OwnedBy(b, pid, s) && WalkTo(b, pid, true, s, es) == Some(v);
      ClosedHoldsNetwork(b, pid, connected, s, es);
    }
    forall v | v in connected
      ensures InNetwork(b, pid, v)
    {
      assert OwnedBy(b, pid, via[v].0) && WalkTo(b, pid, true, via[v].0, via[v].1) == Some(v);
    }
  }

  /**
   * get_player_connected_vertices: the corners of the player's network, each
   * once, by a breadth-first search from the player's buildings along its own
   * roads. The result is list(connected), whose order Python leaves unspecified.
   */
  method GetPlayerConnectedVertices(b: BoardGraph, pid: PlayerId) returns (r: seq<VertexId>)
    requires WellFormed(b)
    ensures Distinct(r)
    ensures forall v :: v in r ==> v in b.vertices
    ensures forall v :: v in r <==> InNetwork(b, pid, v)
  {
    var connected, queue;
    ghost var via;
    connected, queue, via := OwnedCorners(b, pid);
    while |queue| > 0
      invariant Searching(b, pid, connected, queue, via)
      decreases |b.vertices.Keys - connected|, |queue|
    {
      connected, queue, via := VisitNext(b, pid, connected, queue, via);
    }
    SearchComplete(b, pid, connected, via);
    r := ListOf(connected);
  }

  /** One round of the outer loop: pop the front of the deque and follow the player's roads there. */
  method VisitNext(b: BoardGraph, pid: PlayerId, connected0: set<VertexId>, queue0: seq<VertexId>,
                   ghost via0: map<VertexId, (VertexId, seq<EdgeId>)>)
    returns (connected: set<VertexId>, queue: seq<VertexId>, ghost via: map<VertexId, (VertexId, seq<EdgeId>)>)
    requires WellFormed(b) && |queue0| > 0 && Searching(b, pid, connected0, queue0, via0)
    ensures Searching(b, pid, connected, queue, via)
    ensures |b.vertices.Keys - connected| < |b.vertices.Keys - connected0| || (connected == connected0 && |queue| < |queue0|)
  {
    var cur := queue0[0];
    forall e | e in b.vertices[cur].edgeIds
      ensures e in b.edges && OtherEnd(b, e, cur) in b.vertices
    {
      OtherEndIsVertex(b, cur, e);
    }
    connected, queue, via := ExpandFrom(b, pid, cur, connected0, queue0[1..], via0);
    if connected != connected0 {
      CardGrow(b.vertices.Keys, connected0, connected);
    } else {
      assert |queue| < |queue0|;
    }
    forall u | u in connected && u !in queue
      ensures ClosedAt(b, pid, connected, u)
    {
      if u != cur {
        assert u !in queue0;
        ClosedAtMono(b, pid, connected0, connected, u);
      }
    }
  }

  /** The start of the search: the player's buildings, in board order, each in the set and the deque. */
  method OwnedCorners(b: BoardGraph, pid: PlayerId)
    returns (connected: set<VertexId>, queue: seq<VertexId>, ghost via: map<VertexId, (VertexId, seq<EdgeId>)>)
    requires WellFormed(b)
    ensures Searching(b, pid, connected, queue, via)
  {
    connected, queue, via := {}, [], map[];
    var i := 0;
    while i < |b.vertexOrder|
      invariant 0 <= i <= |b.vertexOrder|
      invariant forall v :: v in connected <==> v in queue
      invariant connected <= b.vertices.Keys && Witnessed(b, pid, via, connected)
      invariant forall k :: 0 <= k < i && b.vertices[b.vertexOrder[k]].owner == Some(pid) ==> b.vertexOrder[k] in connected
    {
      var v := b.vertexOrder[i];
      if b.vertices[v].owner == Some(pid) {
        connected := connected + {v};
        queue := queue + [v];
        via := via[v := (v, [])];
      }
      i := i + 1;
    }
    forall v | v in OwnedSet(b, pid)
      ensures v in connected
    {
      var k :| 0 <= k < |b.vertexOrder| && b.vertexOrder[k] == v;
    }
  }

  /** The inner loop of the search: add and enqueue the far corner of each of the player's roads at cur. */
  method ExpandFrom(b: BoardGraph, pid: PlayerId, cur: VertexId, connected0: set<VertexId>, queue0: seq<VertexId>,
                    ghost via0: map<VertexId, (VertexId, seq<EdgeId>)>)
    returns (connected: set<VertexId>, queue: seq<VertexId>, ghost via: map<VertexId, (VertexId, seq<EdgeId>)>)
    requires cur in connected0 && cur in b.vertices
    requires forall e :: e in b.vertices[cur].edgeIds ==> e in b.edges && OtherEnd(b, e, cur) in b.vertices
    requires connected0 <= b.vertices.Keys && Witnessed(b, pid, via0, connected0)
    ensures connected <= b.vertices.Keys && Witnessed(b, pid, via, connected)
    ensures connected0 <= connected && ClosedAt(b, pid, connected, cur)
    ensures forall v :: v in queue <==> v in queue0 || (v in connected && v !in connected0)
    ensures connected == connected0 ==> queue == queue0
  {
    connected, queue, via := connected0, queue0, via0;
    var ids := b.vertices[cur].edgeIds;
    var j := 0;
    while j < |ids|
      invariant 0 <= j <= |ids|
      invariant connected0 <= connected && connected <= b.vertices.Keys && Witnessed(b, pid, via, connected)
      invariant forall v :: v in queue <==> v in queue0 || (v in connected && v !in connected0)
      invariant connected == connected0 ==> queue == queue0
      invariant forall k :: 0 <= k < j && Usable(b, pid, true, ids[k]) ==> OtherEnd(b, ids[k], cur) in connected
    {
      var e := ids[j];
      var edge := b.edges[e];
      if edge.owner == Some(pid) {
        var other := OtherEnd(b, e, cur);
        if other !in connected {
          WitnessedAdd(b, pid, via, connected, cur, e);
          connected := connected + {other};
          queue := queue + [other];
          via := via[other := (via[cur].0, via[cur].1 + [e])];
        }
      }
      j := j + 1;
    }
  }

  // ---------------------------------------------------------------------------
  // _find_vertices_with_resource, shortest_path_to_resource, shortest_path_to_vertex
  // ---------------------------------------------------------------------------

  /** The hexes of hs, in order, that yield resource r: the list comprehension over the hexes. */
  function HexesWith(b: BoardGraph, hs: seq<HexId>, r: Resource): (out: seq<HexId>)
    ensures forall h :: h in out <==> h in hs && h in b.hexes && b.hexes[h].resource == Some(r)
  {
    if hs == [] then []
    else (if hs[0] in b.hexes && b.hexes[hs[0]].resource == Some(r) then [hs[0]] else []) + HexesWith(b, hs[1..], r)
  }

  /** Some hex of hs is at corner v. */
  ghost predicate TouchesAny(b: BoardGraph, v: VertexId, hs: seq<HexId>) {
    v in b.vertices && exists h :: h in hs && h in b.vertices[v].hexIds
  }

  /** The corners at which some hex yields r. */
  ghost function YieldingSet(b: BoardGraph, r: Resource): set<VertexId> {
    set v | v in b.vertices.Keys && YieldsAt(b, v, r)
  }

  lemma TouchesAnySnoc(b: BoardGraph, v: VertexId, hs: seq<HexId>, h: HexId)
    ensures TouchesAny(b, v, hs + [h]) <==> TouchesAny(b, v, hs) || (v in b.vertices && h in b.vertices[v].hexIds)
  {
    if TouchesAny(b, v, hs + [h]) {
      var h' :| h' in hs + [h] && h' in b.vertices[v].hexIds;
      if h' != h {
        assert h' in hs;
      }
    }
    if v in b.vertices && h in b.vertices[v].hexIds {
      assert h in hs + [h];
    }
    if TouchesAny(b, v, hs) {
      var h' :| h' in hs && h' in b.vertices[v].hexIds;
      assert h' in hs + [h];
    }
  }

  /** _find_vertices_with_resource: the corners at which some hex yields r, each once. */
  method FindVerticesWithResource(b: BoardGraph, r: Resource) returns (targets: seq<VertexId>)
    requires WellFormed(b)
    ensures Distinct(targets)
    ensures forall v :: v in targets <==> YieldsAt(b, v, r)
  {
    targets := [];
    var hs := HexesWith(b, b.hexOrder, r);
    var hi := 0;
    while hi < |hs|
      invariant 0 <= hi <= |hs|
      invariant Distinct(targets)
      invariant forall v :: v in targets <==> TouchesAny(b, v, hs[..hi])
    {
      targets := AddCornersOf(b, hs[hi], targets);
      forall v
        ensures v in targets <==> TouchesAny(b, v, hs[..hi + 1])
      {
        TouchesAnySnoc(b, v, hs[..hi], hs[hi]);
        TakeSnoc(hs, hi);
      }
      hi := hi + 1;
    }
    assert hs[..hi] == hs;
    forall v ensures TouchesAny(b, v, hs) <==> YieldsAt(b, v, r) {
      if YieldsAt(b, v, r) {
        var h :| h in b.vertices[v].hexIds && h in b.hexes && b.hexes[h].resource == Some(r);
        assert h in hs;
      }
    }
  }

  /** The inner loop: append, in board order, each corner of hex h not listed yet. */
  method AddCornersOf(b: BoardGraph, h: HexId, targets0: seq<VertexId>) returns (targets: seq<VertexId>)
    requires WellFormed(b) && Distinct(targets0)
    ensures Distinct(targets)
    ensures forall v :: v in targets <==> v in targets0 || (v in b.vertices && h in b.vertices[v].hexIds)
  {
    targets := targets0;
    var vi := 0;
    while vi < |b.vertexOrder|
      invariant 0 <= vi <= |b.vertexOrder|
      invariant Distinct(targets)
      invariant forall v :: v in targets <==> v in targets0 || (v in b.vertexOrder[..vi] && h in b.vertices[v].hexIds)
    {
      var v := b.vertexOrder[vi];
      if h in b.vertices[v].hexIds && v !in targets {
        targets := targets + [v];
      }
      TakeSnoc(b.vertexOrder, vi);
      vi := vi + 1;
    }
    assert b.vertexOrder[..vi] == b.vertexOrder;
  }

  /** shortest_path_to_resource: a cheapest walk from the starts to a corner yielding r. */
  method ShortestPathToResource(b: BoardGraph, starts: seq<VertexId>, r: Resource, pid: PlayerId)
    returns (res: Option<(seq<EdgeId>, nat)>, ghost s: VertexId, ghost es: seq<EdgeId>)
    requires WellFormed(b)
    requires forall v :: v in starts ==> v in b.vertices
    ensures res.Some? ==> res.value.1 == |res.value.0|
    ensures res.Some? ==> Cheapest(b, pid, SetOf(starts), YieldingSet(b, r), s, es) && res.value.0 == Built(b, es)
    ensures res.None? ==> Unreachable(b, pid, SetOf(starts), YieldingSet(b, r))
  {
    var targets := FindVerticesWithResource(b, r);
    assert SetOf(targets) == YieldingSet(b, r);
    if |targets| == 0 {
      return None, "", [];
    }
    res, s, es := DijkstraShortestPath(b, starts, targets, pid);
  }

  /** shortest_path_to_vertex: a cheapest walk from the starts to corner t. */
  method ShortestPathToVertex(b: BoardGraph, starts: seq<VertexId>, t: VertexId, pid: PlayerId)
    returns (res: Option<(seq<EdgeId>, nat)>, ghost s: VertexId, ghost es: seq<EdgeId>)
    requires WellFormed(b)
    requires forall v :: v in starts ==> v in b.vertices
    ensures res.Some? ==> res.value.1 == |res.value.0|
    ensures res.Some? ==> Cheapest(b, pid, SetOf(starts), {t}, s, es) && res.value.0 == Built(b, es)
    ensures res.None? ==> Unreachable(b, pid, SetOf(starts), {t})
  {
    assert SetOf([t]) == {t};
    res, s, es := DijkstraShortestPath(b, starts, [t], pid);
  }

  // ---------------------------------------------------------------------------
  // _find_any_valid_road, find_best_road_placement
  // ---------------------------------------------------------------------------

  /** Road e at corner v is free and its far corner is unoccupied. */
  predicate OpenRoadAt(b: BoardGraph, v: VertexId, e: EdgeId) {
    && v in b.vertices && e in b.vertices[v].edgeIds && e in b.edges && b.edges[e].owner.None?
    && OtherEnd(b, e, v) in b.vertices && b.vertices[OtherEnd(b, e, v)].owner.None?
  }

  /** The pair (i, j) is the first open road in scan order: corners of starts in order, roads of each in order. */
  ghost predicate FirstOpen(b: BoardGraph, starts: seq<VertexId>, i: int, j: int)
    requires forall v :: v in starts ==> v in b.vertices
  {
    && 0 <= i < |starts| && 0 <= j < |b.vertices[starts[i]].edgeIds|
    && OpenRoadAt(b, starts[i], b.vertices[starts[i]].edgeIds[j])
    && (forall i', e :: 0 <= i' < i && e in b.vertices[starts[i']].edgeIds ==> !OpenRoadAt(b, starts[i'], e))
    && (forall j' :: 0 <= j' < j ==> !OpenRoadAt(b, starts[i], b.vertices[starts[i]].edgeIds[j']))
  }

  /** _find_any_valid_road: the first open road at the starts, or None when there is none. */
  method FindAnyValidRoad(b: BoardGraph, pid: PlayerId, starts: seq<VertexId>) returns (r: Option<EdgeId>)
    requires WellFormed(b)
    requires forall v :: v in starts ==> v in b.vertices
    ensures r.Some? ==> exists i, j :: FirstOpen(b, starts, i, j) && b.vertices[starts[i]].edgeIds[j] == r.value
    ensures r.None? <==> forall v, e :: v in starts ==> !OpenRoadAt(b, v, e)
  {
    var i := 0;
    while i < |starts|
      invariant 0 <= i <= |starts|
      invariant forall i', e :: 0 <= i' < i && e in b.vertices[starts[i']].edgeIds ==> !OpenRoadAt(b, starts[i'], e)
    {
      var v := starts[i];
      var ids := b.vertices[v].edgeIds;
      var j := 0;
      while j < |ids|
        invariant 0 <= j <= |ids|
        invariant forall j' :: 0 <= j' < j ==> !OpenRoadAt(b, v, ids[j'])
      {
        var e := ids[j];
        OtherEndIsVertex(b, v, e);
        if b.edges[e].owner.None? {
          var other := OtherEnd(b, e, v);
          if b.vertices[other].owner.None? {
            assert FirstOpen(b, starts, i, j);
            return Some(e);
          }
        }
        j := j + 1;
      }
      i := i + 1;
    }
    return None;
  }

  /** The corners of the player's network. */
  ghost function NetworkSet(b: BoardGraph, pid: PlayerId): set<VertexId> {
    set v | v in b.vertices.Keys && InNetwork(b, pid, v)
  }

  /**
   * find_best_road_placement: the first road to build on a cheapest walk from the
   * player's network to a corner yielding the wanted resource, or else to the
   * wanted corner; with neither target, an open road at the network. A target
   * corner given as the empty string counts as no target, as in Python. The
   * ghost results are the cheapest walk.
   */
  method FindBestRoadPlacement(b: BoardGraph, pid: PlayerId, targetResource: Option<Resource>, targetVertex: Option<VertexId>)
    returns (r: Option<EdgeId>, ghost s: VertexId, ghost es: seq<EdgeId>)
    requires WellFormed(b)
    ensures r.Some? ==> exists v :: OwnedBy(b, pid, v)
    ensures r.Some? ==> r.value in b.edges && b.edges[r.value].owner.None?
    ensures targetResource.Some? ==>
      var targets := YieldingSet(b, targetResource.value);
      if r.Some? then Cheapest(b, pid, NetworkSet(b, pid), targets, s, es) && Built(b, es) != [] && Built(b, es)[0] == r.value
      else Unreachable(b, pid, NetworkSet(b, pid), targets)
           || (Cheapest(b, pid, NetworkSet(b, pid), targets, s, es) && Built(b, es) == [])
    ensures targetResource.None? && targetVertex.Some? && targetVertex.value != "" ==>
      var targets := {targetVertex.value};
      if r.Some? then Cheapest(b, pid, NetworkSet(b, pid), targets, s, es) && Built(b, es) != [] && Built(b, es)[0] == r.value
      else Unreachable(b, pid, NetworkSet(b, pid), targets)
           || (Cheapest(b, pid, NetworkSet(b, pid), targets, s, es) && Built(b, es) == [])
    ensures targetResource.None? && (targetVertex.None? || targetVertex.value == "") ==>
      (r.Some? ==> exists v :: InNetwork(b, pid, v) && OpenRoadAt(b, v, r.value))
      && (r.None? ==> forall v, e :: InNetwork(b, pid, v) ==> !OpenRoadAt(b, v, e))
  {
    s, es := "", [];
    var starts := GetPlayerConnectedVertices(b, pid);
    assert SetOf(starts) == NetworkSet(b, pid);
    if |starts| == 0 {
      return None, s, es;
    }
    ghost var v0 := starts[0];
    assert InNetwork(b, pid, v0);
    var result: Option<(seq<EdgeId>, nat)>;
    if targetResource.Some? {
      result, s, es := ShortestPathToResource(b, starts, targetResource.value, pid);
    } else if targetVertex.Some? && targetVertex.value != "" {
      result, s, es := ShortestPathToVertex(b, starts, targetVertex.value, pid);
    } else {
      r := FindAnyValidRoad(b, pid, starts);
      if r.Some? {
        ghost var i, j :| FirstOpen(b, starts, i, j) && b.vertices[starts[i]].edgeIds[j] == r.value;
        assert InNetwork(b, pid, starts[i]);
      }
      return r, s, es;
    }
    if result.Some? && |result.value.0| > 0 {
      r := Some(result.value.0[0]);
      assert r.value in Built(b, es);
    } else {
      r := None;
    }
  }
}
