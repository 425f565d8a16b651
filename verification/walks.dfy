/**
 * Walks along the roads of a board, the vocabulary in which the searches of
 * search/pathfinding.py are specified. A walk is a starting corner and the
 * roads taken in order; each road must be listed at the corner it leaves from
 * and must be usable by the walking player.
 */
module Walks {
  import opened Wrappers
  import opened Board

  /**
   * The roads a player's walks may use. When onlyOwn holds only the player's
   * own roads may be used (the network search); otherwise free road slots may
   * be used too, as roads still to be built (the shortest-path search).
   */
  predicate Usable(b: BoardGraph, pid: PlayerId, onlyOwn: bool, e: EdgeId) {
    e in b.edges && (b.edges[e].owner == Some(pid) || (!onlyOwn && b.edges[e].owner.None?))
  }

  /** The corner a walk from s along es ends at, or None when es is not a walk. */
  function WalkTo(b: BoardGraph, pid: PlayerId, onlyOwn: bool, s: VertexId, es: seq<EdgeId>): Option<VertexId>
    decreases |es|
  {
    if es == [] then (if s in b.vertices then Some(s) else None)
    else
      match WalkTo(b, pid, onlyOwn, s, es[..|es| - 1])
      case None => None
      case Some(u) =>
        var e := es[|es| - 1];
        if u in b.vertices && e in b.vertices[u].edgeIds && Usable(b, pid, onlyOwn, e) then Some(OtherEnd(b, e, u))
        else None
  }

  /** The roads among es that are still free, in order: what must be built to walk es. */
  function Built(b: BoardGraph, es: seq<EdgeId>): (r: seq<EdgeId>)
    ensures |r| <= |es|
    ensures forall e :: e in r ==> e in b.edges && b.edges[e].owner.None?
    decreases |es|
  {
    if es == [] then []
    else
      var e := es[|es| - 1];
      Built(b, es[..|es| - 1]) + (if e in b.edges && b.edges[e].owner.None? then [e] else [])
  }

  /** What taking road e adds to the number of roads to build. */
  function StepCost(b: BoardGraph, e: EdgeId): nat {
    if e in b.edges && b.edges[e].owner.None? then 1 else 0
  }

  /** Extending a walk by one road that leaves its end. */
  lemma WalkToSnoc(b: BoardGraph, pid: PlayerId, onlyOwn: bool, s: VertexId, es: seq<EdgeId>, e: EdgeId)
    requires WalkTo(b, pid, onlyOwn, s, es).Some?
    ensures WalkTo(b, pid, onlyOwn, s, es + [e]) ==
      var u := WalkTo(b, pid, onlyOwn, s, es).value;
      if u in b.vertices && e in b.vertices[u].edgeIds && Usable(b, pid, onlyOwn, e) then Some(OtherEnd(b, e, u)) else None
    ensures Built(b, es + [e]) == Built(b, es) + (if StepCost(b, e) == 1 then [e] else [])
  {
    assert (es + [e])[..|es|] == es;
  }

  /** Every walk on a well-formed board stays on its corners. */
  lemma {:induction false} WalkToInVertices(b: BoardGraph, pid: PlayerId, onlyOwn: bool, s: VertexId, es: seq<EdgeId>)
    requires WellFormed(b) && WalkTo(b, pid, onlyOwn, s, es).Some?
    ensures WalkTo(b, pid, onlyOwn, s, es).value in b.vertices
    decreases |es|
  {
    if es != [] {
      WalkToInVertices(b, pid, onlyOwn, s, es[..|es| - 1]);
      var u := WalkTo(b, pid, onlyOwn, s, es[..|es| - 1]).value;
      OtherEndIsVertex(b, u, es[|es| - 1]);
    }
  }

  /** A walk on own roads is also a walk when free slots are allowed, and builds nothing. */
  lemma {:induction false} OwnWalkIsWalk(b: BoardGraph, pid: PlayerId, s: VertexId, es: seq<EdgeId>)
    requires WalkTo(b, pid, true, s, es).Some?
    ensures WalkTo(b, pid, false, s, es) == WalkTo(b, pid, true, s, es)
    ensures Built(b, es) == []
    decreases |es|
  {
    if es != [] {
      OwnWalkIsWalk(b, pid, s, es[..|es| - 1]);
    }
  }
}
