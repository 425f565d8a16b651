/**
 * The bridge between the game state and the turn engine, engine/turn_adapter.py:
 * the resource name tables, the player views and board snapshot built from the
 * game, the robber-target heuristic handed to the engine, and the copy of the
 * engine's counters back into the players once the dice phase is over.
 */
module TurnAdapter {
  import opened Wrappers
  import opened Enums
  import opened Board
  import opened Game
  import opened Strings
  import TE = TurnEngine

  // ---------------------------------------------------------------------------
  // Resource names
  // ---------------------------------------------------------------------------

  /** RESOURCE_TO_STR, read with .get: the engine's name of a producing resource; the desert has none. */
  function ResourceName(r: Resource): (n: Option<TE.ResName>)
    ensures n.Some? <==> r in ProducingResources
  {
    match r
    case Brick => Some("brick")
    case Lumber => Some("wood")
    case Wool => Some("sheep")
    case Grain => Some("wheat")
    case Ore => Some("ore")
    case Desert => None
  }

  /** The names RESOURCE_TO_STR uses, the keys of STR_TO_RESOURCE. */
  const ResourceNames: set<TE.ResName> := {"brick", "wood", "sheep", "wheat", "ore"}

  /** STR_TO_RESOURCE: the resource a name stands for; any other name is a KeyError. */
  function ResourceOf(n: TE.ResName): (r: Option<Resource>)
    ensures r.Some? <==> n in ResourceNames
    ensures r.Some? ==> r.value in ProducingResources
  {
    if n == "brick" then Some(Brick)
    else if n == "wood" then Some(Lumber)
    else if n == "sheep" then Some(Wool)
    else if n == "wheat" then Some(Grain)
    else if n == "ore" then Some(Ore)
    else None
  }

  /** Naming a producing resource and reading the name back gives the resource. */
  lemma ResourceNameRoundTrip(r: Resource)
    requires r in ProducingResources
    ensures ResourceName(r).Some? && ResourceName(r).value in ResourceNames
    ensures ResourceOf(ResourceName(r).value) == Some(r)
  {
  }

  /** Reading a known name and naming the resource gives the name back. */
  lemma ResourceOfRoundTrip(n: TE.ResName)
    requires n in ResourceNames
    ensures ResourceOf(n).Some? && ResourceName(ResourceOf(n).value) == Some(n)
  {
  }

  /** Different producing resources get different names. */
  lemma ResourceNameInjective(r: Resource, q: Resource)
    requires r in ProducingResources && q in ProducingResources && ResourceName(r) == ResourceName(q)
    ensures r == q
  {
    ResourceNameRoundTrip(r);
    ResourceNameRoundTrip(q);
  }

  // ---------------------------------------------------------------------------
  // Player views
  // ---------------------------------------------------------------------------

  /** The engine's counter for a player's resources: each producing kind under its name, the desert skipped. */
  function HandOf(counts: map<Resource, int>): (h: TE.Hand)
    ensures forall r :: r in counts && r != Desert ==>
      ResourceName(r).Some? && ResourceName(r).value in h && h[ResourceName(r).value] == counts[r]
    ensures forall n :: n in h ==> n in ResourceNames && ResourceOf(n).value in counts
  {
    map n | n in ResourceNames && ResourceOf(n).value in counts :: counts[ResourceOf(n).value]
  }

  /** The inner loop of _build_player_views: copy each count but the desert's under its name. */
  method ViewHand(counts: map<Resource, int>) returns (h: TE.Hand)
    ensures h == HandOf(counts)
  {
    h := map[];
    var rest := counts.Keys;
    while rest != {}
      invariant rest <= counts.Keys
      invariant forall n :: n in h <==> n in ResourceNames && ResourceOf(n).value in counts && ResourceOf(n).value !in rest
      invariant forall n :: n in h ==> h[n] == counts[ResourceOf(n).value]
      decreases rest
    {
      var r :| r in rest;
      rest := rest - {r};
      if r != Desert {
        ResourceNameRoundTrip(r);
        h := h[ResourceName(r).value := counts[r]];
      }
    }
  }

  /** The view and the baseline filed under pid: the player's name and counts, the baseline a copy of the counts. */
  ghost predicate Filed(views: map<TE.PlayerID, TE.PlayerView>, baselines: map<TE.PlayerID, TE.Hand>, pid: TE.PlayerID,
                        name: string, h: TE.Hand)
    reads if pid in views then {views[pid]} else {}
  {
    && pid in views && pid in baselines
    && views[pid].playerId == pid && views[pid].name == name && views[pid].resources == h && baselines[pid] == h
  }

  /** The next id in the list "0", "1", ... is not yet in it. */
  lemma IdFresh(order: seq<TE.PlayerID>)
    requires forall k :: 0 <= k < |order| ==> order[k] == ShowInt(k)
    ensures ShowInt(|order|) !in order
  {
    forall k | 0 <= k < |order|
      ensures order[k] != ShowInt(|order|)
    {
      ShowIntInjective(k, |order|);
    }
  }

  /** The ids "0", "1", ... are pairwise distinct. */
  lemma IdsDistinct(order: seq<TE.PlayerID>)
    requires forall k :: 0 <= k < |order| ==> order[k] == ShowInt(k)
    ensures forall i, j :: 0 <= i < j < |order| ==> order[i] != order[j]
  {
    forall i, j | 0 <= i < j < |order|
      ensures order[i] != order[j]
    {
      ShowIntInjective(i, j);
    }
  }

  /** The first i players are filed: ids "0" .. str(i-1) in order, each with its view and baseline. */
  ghost predicate FiledUpTo(g: GameState, views: map<TE.PlayerID, TE.PlayerView>, order: seq<TE.PlayerID>,
                            baselines: map<TE.PlayerID, TE.Hand>, i: nat)
    reads g.players, views.Values
  {
    && i <= |g.players| && |order| == i && (forall k :: 0 <= k < i ==> order[k] == ShowInt(k))
    && (forall p :: p in views <==> p in order)
    && baselines.Keys == views.Keys
    && forall k :: 0 <= k < i ==> Filed(views, baselines, order[k], g.players[k].name, HandOf(g.players[k].resources))
  }

  /** One turn of the loop of _build_player_views: file a fresh view of the next player under str(id). */
  method FileView(g: GameState, views: map<TE.PlayerID, TE.PlayerView>, order: seq<TE.PlayerID>,
                  baselines: map<TE.PlayerID, TE.Hand>)
    returns (views': map<TE.PlayerID, TE.PlayerView>, order': seq<TE.PlayerID>, baselines': map<TE.PlayerID, TE.Hand>)
    requires FiledUpTo(g, views, order, baselines, |order|) && |order| < |g.players| && g.players[|order|].id == |order|
    ensures FiledUpTo(g, views', order', baselines', |order| + 1)
    ensures forall p :: p in views' ==> p in views || fresh(views'[p])
    ensures forall p :: p in views ==> views'[p] == views[p]
  {
    var i := |order|;
    var player := g.players[i];
    var resources := ViewHand(player.resources);
    var pid := ShowInt(player.id);
    IdFresh(order);
    var view := new TE.PlayerView(pid, player.name, resources);
    views' := views[pid := view];
    baselines' := baselines[pid := resources];
    order' := order + [pid];
    forall k | 0 <= k < i + 1
      ensures Filed(views', baselines', order'[k], g.players[k].name, HandOf(g.players[k].resources))
    {
      if k < i {
        assert order'[k] == order[k] && order[k] != pid;
        assert Filed(views, baselines, order[k], g.players[k].name, HandOf(g.players[k].resources));
      }
    }
  }

  /**
   * _build_player_views: one fresh view per player, filed under str(id) in player
   * order, holding the player's counts by name; each baseline starts equal to
   * its view's counter.
   */
  method BuildPlayerViews(g: GameState)
    returns (views: map<TE.PlayerID, TE.PlayerView>, order: seq<TE.PlayerID>, baselines: map<TE.PlayerID, TE.Hand>)
    requires forall i :: 0 <= i < |g.players| ==> g.players[i].id == i
    ensures |order| == |g.players| && forall i :: 0 <= i < |order| ==> order[i] == ShowInt(i)
    ensures forall i, j :: 0 <= i < j < |order| ==> order[i] != order[j]
    ensures forall p :: p in views <==> p in order
    ensures baselines.Keys == views.Keys
    ensures forall i :: 0 <= i < |order| ==> Filed(views, baselines, order[i], g.players[i].name, HandOf(g.players[i].resources))
    ensures forall p :: p in views ==> fresh(views[p])
  {
    views, order, baselines := map[], [], map[];
    for i := 0 to |g.players|
      invariant FiledUpTo(g, views, order, baselines, i)
      invariant forall p :: p in views ==> fresh(views[p])
    {
      views, order, baselines := FileView(g, views, order, baselines);
    }
    IdsDistinct(order);
  }

  // ---------------------------------------------------------------------------
  // Board snapshot
  // ---------------------------------------------------------------------------

  /** Every hex a corner lists is a hex of the board (hex_to_vertices[hid] is a KeyError otherwise). */
  predicate HexesKnown(b: BoardGraph) {
    forall v, h :: v in b.vertices && h in b.vertices[v].hexIds ==> h in b.hexes
  }

  /** The corners among vs that touch hex h, in the order of vs. */
  function HexCorners(b: BoardGraph, vs: seq<VertexId>, h: HexId): (cs: seq<VertexId>)
    ensures forall v :: v in cs <==> v in vs && v in b.vertices && h in b.vertices[v].hexIds
    ensures Distinct(vs) ==> Distinct(cs)
    decreases |vs|
  {
    if vs == [] then []
    else
      var v := vs[|vs| - 1];
      var rest := HexCorners(b, vs[..|vs| - 1], h);
      assert forall u :: u in vs <==> u in vs[..|vs| - 1] || u == v;
      assert Distinct(vs) ==> Distinct(vs[..|vs| - 1]) && v !in vs[..|vs| - 1];
      rest + (if v in b.vertices && h in b.vertices[v].hexIds then [v] else [])
  }

  /** The hex's resource as a name: none for a hex without resource and for the desert. */
  function TileResource(res: Option<Resource>): (n: Option<TE.ResName>)
    ensures n.Some? <==> res.Some? && res.value != Desert
    ensures n.Some? ==> n.value in ResourceNames && ResourceOf(n.value) == res
  {
    if res.Some? then ResourceName(res.value) else None
  }

  /** hex_tile.number or 0: a missing token reads as 0. */
  function TileNumber(number: Option<int>): (k: int)
    ensures number.None? ==> k == 0
    ensures number.Some? ==> k == number.value
  {
    if number.Some? then number.value else 0
  }

  /** A corner's entry in vertex_owners: (str(owner), "city" or "settlement"), or (None, None). */
  function OwnerEntry(vx: Vertex): (o: TE.VertexOwner)
    ensures o.owner.Some? <==> vx.owner.Some?
    ensures vx.owner.Some? ==> o.owner.value == ShowInt(vx.owner.value) && TE.Amount(o.structure) == (if vx.isCity then 2 else 1)
  {
    if vx.owner.None? then TE.VertexOwner(None, None)
    else TE.VertexOwner(Some(ShowInt(vx.owner.value)), Some(if vx.isCity then "city" else "settlement"))
  }

  /** _build_board_snapshot: the hexes as tiles in the board's order, the corner owners, and the robber hex. */
  function BuildBoardSnapshot(b: BoardGraph, robber: HexId): (s: TE.BoardSnapshot)
    requires HexesKnown(b)
    ensures s.tileOrder == b.hexOrder && s.tiles.Keys == b.hexes.Keys && s.vertexOwners.Keys == b.vertices.Keys
    ensures s.robberTileId == Some(robber)
    ensures forall h :: h in s.tiles ==> s.tiles[h].tileId == h && s.tiles[h].vertices == HexCorners(b, b.vertexOrder, h)
  {
    TE.BoardSnapshot(
      map h | h in b.hexes :: TE.TileView(h, TileNumber(b.hexes[h].number), TileResource(b.hexes[h].resource),
                                          HexCorners(b, b.vertexOrder, h), robber == h),
      b.hexOrder,
      map v | v in b.vertices :: OwnerEntry(b.vertices[v]),
      Some(robber))
  }

  /** Exactly the robber hex is robbed in the snapshot, both by its flag and by the robber id. */
  lemma SnapshotRobber(b: BoardGraph, robber: HexId, h: HexId)
    requires HexesKnown(b) && h in b.hexes
    ensures var s := BuildBoardSnapshot(b, robber);
      (s.tiles[h].hasRobber <==> h == robber) && (TE.Robbed(s, s.tiles[h]) <==> h == robber)
  {
  }

  /**
   * Each tile lists exactly the corners that touch it, once each, and carries
   * the hex's number (0 when missing) and resource (none for the desert).
   */
  lemma SnapshotTile(b: BoardGraph, robber: HexId, h: HexId)
    requires WellFormed(b) && h in b.hexes
    ensures var t := BuildBoardSnapshot(b, robber).tiles[h];
      && (forall v :: v in t.vertices <==> v in b.vertices && h in b.vertices[v].hexIds)
      && Distinct(t.vertices)
      && (b.hexes[h].number.None? ==> t.number == 0)
      && (t.resource.Some? <==> b.hexes[h].resource.Some? && b.hexes[h].resource.value != Desert)
      && (t.resource.Some? ==> ResourceOf(t.resource.value) == b.hexes[h].resource)
  {
  }

  /** The snapshot's owners are the players' ids as strings, and a corner pays 2 exactly when it is a city. */
  lemma SnapshotOwner(b: BoardGraph, robber: HexId, v: VertexId, p: PlayerId)
    requires HexesKnown(b) && v in b.vertices
    ensures var o := TE.OwnerAt(BuildBoardSnapshot(b, robber).vertexOwners, v);
      && (o.owner == Some(ShowInt(p)) <==> b.vertices[v].owner == Some(p))
      && (o.owner.Some? ==> TE.Amount(o.structure) == if b.vertices[v].isCity then 2 else 1)
  {
    if b.vertices[v].owner.Some? {
      ShowIntInjective(p, b.vertices[v].owner.value);
    }
  }

  /** Every corner owner is a player: a player id in range. */
  predicate OwnersArePlayers(b: BoardGraph, n: nat) {
    forall v :: v in b.vertices && b.vertices[v].owner.Some? ==> 0 <= b.vertices[v].owner.value < n
  }

  /** The player ids as the engine names them. */
  function PlayerIds(n: nat): (ids: set<TE.PlayerID>)
    ensures forall i :: 0 <= i < n ==> ShowInt(i) in ids
    ensures forall p :: p in ids ==> exists i :: 0 <= i < n && p == ShowInt(i)
  {
    set i | 0 <= i < n :: ShowInt(i)
  }

  /** A well-formed board gives a snapshot the engine can work with: tiles in order, owners among the players. */
  lemma SnapshotShaped(b: BoardGraph, robber: HexId, n: nat)
    requires WellFormed(b) && OwnersArePlayers(b, n)
    ensures TE.Ordered(BuildBoardSnapshot(b, robber))
    ensures TE.OwnedBy(BuildBoardSnapshot(b, robber), PlayerIds(n))
    ensures TilesNamed(BuildBoardSnapshot(b, robber))
  {
    var s := BuildBoardSnapshot(b, robber);
    forall v | v in s.vertexOwners && s.vertexOwners[v].owner.Some?
      ensures s.vertexOwners[v].owner.value in PlayerIds(n)
    {
      assert 0 <= b.vertices[v].owner.value < n;
    }
  }

  /** A tile whose resource is a known name: every tile of a built snapshot. */
  predicate TilesNamed(s: TE.BoardSnapshot) {
    forall h :: h in s.tiles && s.tiles[h].resource.Some? ==> s.tiles[h].resource.value in ResourceNames
  }

  /** Production only ever pays in named resources. */
  lemma {:induction false} YieldOnlyNamed(s: TE.BoardSnapshot, ids: seq<int>, roll: int, p: TE.PlayerID, n: TE.ResName)
    requires TilesNamed(s) && n !in ResourceNames
    ensures TE.Yield(s, ids, roll, p, n) == 0
    decreases |ids|
  {
    if ids != [] {
      YieldOnlyNamed(s, ids[..|ids| - 1], roll, p, n);
    }
  }

  // ---------------------------------------------------------------------------
  // The robber-target heuristic
  // ---------------------------------------------------------------------------

  /** A corner held by someone other than the current player (an empty owner string does not count). */
  predicate EnemyCorner(s: TE.BoardSnapshot, v: string, current: TE.PlayerID) {
    var o := TE.OwnerAt(s.vertexOwners, v).owner;
    o.Some? && o.value != "" && o.value != current
  }

  /** A tile the heuristic accepts: not the robber tile, with a resource, touching an enemy corner. */
  predicate Targetable(s: TE.BoardSnapshot, id: int, current: TE.PlayerID) {
    && id in s.tiles
    && s.robberTileId != Some(s.tiles[id].tileId)
    && s.tiles[id].resource.Some?
    && exists v :: v in s.tiles[id].vertices && EnemyCorner(s, v, current)
  }

  /** The first acceptable tile among ids, in order, or None. */
  function FirstTarget(s: TE.BoardSnapshot, ids: seq<int>, current: TE.PlayerID): (t: Option<int>)
    ensures t.None? <==> forall id :: id in ids ==> !Targetable(s, id, current)
    ensures t.Some? ==> exists k :: (0 <= k < |ids| && Targetable(s, ids[k], current) && t.value == s.tiles[ids[k]].tileId
      && forall j :: 0 <= j < k ==> !Targetable(s, ids[j], current))
    decreases |ids|
  {
    if ids == [] then None
    else if Targetable(s, ids[0], current) then Some(s.tiles[ids[0]].tileId)
    else
      var t := FirstTarget(s, ids[1..], current);
      assert forall id :: id in ids <==> id == ids[0] || id in ids[1..];
      if t.Some? then
        ghost var k :| 0 <= k < |ids[1..]| && Targetable(s, ids[1..][k], current) && t.value == s.tiles[ids[1..][k]].tileId
          && forall j :: 0 <= j < k ==> !Targetable(s, ids[1..][j], current);
        assert ids[k + 1] == ids[1..][k];
        assert forall j :: 1 <= j < k + 1 ==> ids[j] == ids[1..][j - 1];
        t
      else t
  }

  /** A robber id Python treats as true: present and not 0. */
  predicate Truthy(id: Option<int>) {
    id.Some? && id.value != 0
  }

  /**
   * _choose_robber_target: the first acceptable tile; failing that the robber
   * tile when its id is truthy, and otherwise the first tile (StopIteration on
   * an empty board).
   */
  function ChooseRobberTarget(s: TE.BoardSnapshot, current: TE.PlayerID): (t: int)
    requires Truthy(s.robberTileId) || s.tileOrder != []
    ensures FirstTarget(s, s.tileOrder, current).Some? ==> t == FirstTarget(s, s.tileOrder, current).value
    ensures FirstTarget(s, s.tileOrder, current).None? ==>
      t == (if Truthy(s.robberTileId) then s.robberTileId.value else s.tileOrder[0])
  {
    match FirstTarget(s, s.tileOrder, current)
    case Some(t) => t
    case None => if Truthy(s.robberTileId) then s.robberTileId.value else s.tileOrder[0]
  }

  /**
   * A tile the heuristic picks on its merits is not the robber tile, has a
   * resource and has an opponent of the current player on one of its corners,
   * so the steal that follows has someone to consider.
   */
  lemma ChosenTileHasOpponents(s: TE.BoardSnapshot, current: TE.PlayerID)
    requires FirstTarget(s, s.tileOrder, current).Some?
    requires forall id :: id in s.tiles ==> s.tiles[id].tileId == id
    ensures var t := ChooseRobberTarget(s, current);
      && t in s.tiles && s.robberTileId != Some(t) && s.tiles[t].resource.Some?
      && TE.Opponents(s.vertexOwners, s.tiles[t].vertices, current) != {}
  {
    var t := ChooseRobberTarget(s, current);
    var k :| 0 <= k < |s.tileOrder| && Targetable(s, s.tileOrder[k], current) && t == s.tiles[s.tileOrder[k]].tileId;
    var v :| v in s.tiles[t].vertices && EnemyCorner(s, v, current);
    assert TE.OwnerAt(s.vertexOwners, v).owner.value in TE.Opponents(s.vertexOwners, s.tiles[t].vertices, current);
  }

  /** On a snapshot of the game the target is a tile unless every tile is rejected and the robber hex is not a hex. */
  lemma TargetIsTile(b: BoardGraph, robber: HexId, current: TE.PlayerID)
    requires WellFormed(b) && (robber != 0 || b.hexOrder != [])
    ensures var s := BuildBoardSnapshot(b, robber);
      ChooseRobberTarget(s, current) in s.tiles <==> FirstTarget(s, s.tileOrder, current).Some? || robber in b.hexes || (robber == 0 && b.hexOrder != [])
  {
    var s := BuildBoardSnapshot(b, robber);
    if FirstTarget(s, s.tileOrder, current).Some? {
      var k :| 0 <= k < |s.tileOrder| && Targetable(s, s.tileOrder[k], current)
        && FirstTarget(s, s.tileOrder, current).value == s.tiles[s.tileOrder[k]].tileId;
    } else if robber == 0 {
      assert b.hexOrder[0] in b.hexOrder;
    }
  }

  // ---------------------------------------------------------------------------
  // Copying the counts back
  // ---------------------------------------------------------------------------

  /**
   * A view the copy can handle: a name outside the table only appears with its
   * baseline count (it is skipped as delta 0), and every baseline name the view
   * lost is a known name. Anything else is a KeyError in STR_TO_RESOURCE.
   */
  predicate Syncable(view: TE.Hand, baseline: TE.Hand) {
    && (forall n :: n in view && n !in ResourceNames ==> view[n] == TE.Count(baseline, n))
    && (forall n :: n in baseline && n !in view ==> n in ResourceNames)
  }

  /**
   * The count the copy leaves for a resource named n that stood at c: a name the
   * view holds moves by the view's change against the baseline; a name the view
   * lost drops by its baseline count, floored at 0; any other count is kept.
   */
  function Synced(c: int, view: TE.Hand, baseline: TE.Hand, n: TE.ResName): int {
    if n in view then c + (view[n] - TE.Count(baseline, n))
    else if n in baseline then TE.Max0(c - baseline[n])
    else c
  }

  /** Started from the player's own counts, the copy leaves exactly the view's count (0 when absent). */
  lemma SyncFromBaseline(counts: map<Resource, int>, view: TE.Hand, r: Resource)
    requires counts.Keys == ProducingResources && r in ProducingResources
    ensures Synced(counts[r], view, HandOf(counts), ResourceName(r).value) == TE.Count(view, ResourceName(r).value)
  {
    ResourceNameRoundTrip(r);
  }

  /** The copy for one player: the first loop of _sync_player_resources over the view, then the second over the baseline. */
  method SyncPlayer(player: Player, view: TE.Hand, baseline: TE.Hand) returns (ok: bool)
    requires player.resources.Keys == ProducingResources
    modifies player`resources
    ensures ok <==> Syncable(view, baseline)
    ensures player.resources.Keys == ProducingResources
    ensures ok ==> forall r :: r in ProducingResources ==>
      player.resources[r] == Synced(old(player.resources)[r], view, baseline, ResourceName(r).value)
    ensures !ok ==> forall r :: r in ProducingResources ==>
      player.resources[r] == old(player.resources)[r]
      || player.resources[r] == Synced(old(player.resources)[r], view, baseline, ResourceName(r).value)
  {
    var rest := view.Keys;
    while rest != {}
      invariant rest <= view.Keys && player.resources.Keys == ProducingResources
      invariant forall n :: n in view && n !in rest && n !in ResourceNames ==> view[n] == TE.Count(baseline, n)
      invariant forall r :: r in ProducingResources ==>
        player.resources[r] == if ResourceName(r).value in view && ResourceName(r).value !in rest
          then Synced(old(player.resources)[r], view, baseline, ResourceName(r).value) else old(player.resources)[r]
      decreases rest
    {
      var n :| n in rest;
      rest := rest - {n};
      var delta := view[n] - TE.Count(baseline, n);
      if delta != 0 {
        var r := ResourceOf(n);
        if r.None? {
          return false;
        }
        ResourceOfRoundTrip(n);
        forall q | q in ProducingResources && ResourceName(q).value == n
          ensures q == r.value
        {
          ResourceNameInjective(q, r.value);
        }
        player.resources := player.resources[r.value := player.resources[r.value] + delta];
      }
    }
    var lost := baseline.Keys;
    while lost != {}
      invariant lost <= baseline.Keys && player.resources.Keys == ProducingResources
      invariant forall n :: n in baseline && n !in lost && n !in view ==> n in ResourceNames
      invariant forall r :: r in ProducingResources ==>
        player.resources[r] == if ResourceName(r).value in view || (ResourceName(r).value in baseline && ResourceName(r).value !in lost)
          then Synced(old(player.resources)[r], view, baseline, ResourceName(r).value) else old(player.resources)[r]
      decreases lost
    {
      var n :| n in lost;
      lost := lost - {n};
      if n !in view {
        var r := ResourceOf(n);
        if r.None? {
          return false;
        }
        ResourceOfRoundTrip(n);
        forall q | q in ProducingResources && ResourceName(q).value == n
          ensures q == r.value
        {
          ResourceNameInjective(q, r.value);
        }
        player.resources := player.resources[r.value := TE.Max0(player.resources[r.value] - baseline[n])];
      }
    }
    ok := true;
  }

  /** Player p holds, for each producing resource, the count the copy leaves from before. */
  ghost predicate SyncedFrom(p: Player, before: map<Resource, int>, view: TE.Hand, baseline: TE.Hand)
    reads p
  {
    && p.resources.Keys == ProducingResources && before.Keys == ProducingResources
    && forall r :: r in ProducingResources ==> p.resources[r] == Synced(before[r], view, baseline, ResourceName(r).value)
  }

  /** A copy started from the player's own counts leaves exactly the view's counts. */
  lemma SyncedExactly(p: Player, before: map<Resource, int>, view: TE.Hand)
    requires SyncedFrom(p, before, view, HandOf(before))
    ensures forall r :: r in ProducingResources ==> p.resources[r] == TE.Count(view, ResourceName(r).value)
  {
  }

  /**
   * _sync_player_resources: for each view in player order, the player whose id
   * the view's key names gets the view's counts copied back. A KeyError stops
   * the copy at the first player whose view cannot be copied.
   */
  method SyncPlayerResources(g: GameState, views: map<TE.PlayerID, TE.PlayerView>, order: seq<TE.PlayerID>,
                             baselines: map<TE.PlayerID, TE.Hand>) returns (ok: bool)
    requires |order| == |g.players| && forall i :: 0 <= i < |order| ==> order[i] == ShowInt(i)
    requires forall i :: 0 <= i < |order| ==> order[i] in views && order[i] in baselines
    requires forall i, j :: 0 <= i < j < |g.players| ==> g.players[i] != g.players[j]
    requires forall i :: 0 <= i < |g.players| ==> g.players[i].resources.Keys == ProducingResources
    modifies g.players`resources
    ensures forall i :: 0 <= i < |g.players| ==> g.players[i].resources.Keys == ProducingResources
    ensures ok <==> forall i :: 0 <= i < |order| ==> Syncable(views[order[i]].resources, baselines[order[i]])
    ensures ok ==> forall i :: 0 <= i < |g.players| ==>
      SyncedFrom(g.players[i], old(g.players[i].resources), views[order[i]].resources, baselines[order[i]])
    ensures !ok ==> exists k :: (0 <= k < |order| && !Syncable(views[order[k]].resources, baselines[order[k]])
      && (forall i :: k < i < |g.players| ==> g.players[i].resources == old(g.players[i].resources))
      && (forall i :: 0 <= i < k ==>
            SyncedFrom(g.players[i], old(g.players[i].resources), views[order[i]].resources, baselines[order[i]])))
  {
    ghost var before := seq(|g.players|, i requires 0 <= i < |g.players| reads g.players => g.players[i].resources);
    for k := 0 to |order|
      invariant forall i :: 0 <= i < |g.players| ==> before[i] == old(g.players[i].resources)
      invariant forall i :: k <= i < |g.players| ==> g.players[i].resources == before[i]
      invariant CopiedUpTo(g.players, before, views, order, baselines, k)
    {
      var pid := order[k];
      ParseShowNat(k);
      var player := g.players[ParseNat(pid)];
      label L:
      var done := SyncPlayer(player, views[pid].resources, baselines[pid]);
      forall i | 0 <= i < |g.players| && i != k
        ensures g.players[i].resources == old@L(g.players[i].resources)
        ensures i < k ==> SyncedFrom(g.players[i], before[i], views[order[i]].resources, baselines[order[i]])
      {
        assert g.players[i] != player;
        if i < k {
          assert old@L(SyncedFrom(g.players[i], before[i], views[order[i]].resources, baselines[order[i]]));
        }
      }
      if !done {
        assert !Syncable(views[order[k]].resources, baselines[order[k]])
          && (forall i :: k < i < |g.players| ==> g.players[i].resources == old(g.players[i].resources))
          && (forall i :: 0 <= i < k ==>
                SyncedFrom(g.players[i], old(g.players[i].resources), views[order[i]].resources, baselines[order[i]]));
        return false;
      }
    }
    ok := true;
  }

  /** The first k players have had their views copied back, and those views could be copied. */
  ghost predicate CopiedUpTo(players: seq<Player>, before: seq<map<Resource, int>>, views: map<TE.PlayerID, TE.PlayerView>,
                             order: seq<TE.PlayerID>, baselines: map<TE.PlayerID, TE.Hand>, k: nat)
    reads players, views.Values
  {
    && k <= |players| && k <= |before| && k <= |order|
    && forall i :: 0 <= i < k ==>
      && order[i] in views && order[i] in baselines
      && Syncable(views[order[i]].resources, baselines[order[i]])
      && SyncedFrom(players[i], before[i], views[order[i]].resources, baselines[order[i]])
  }

  /**
   * What a non-seven roll does to one player's counts once copied back: the
   * view was credited with the board's yield, so the copy succeeds and each
   * count grows by exactly that yield.
   */
  lemma ProductionSyncs(counts: map<Resource, int>, view: TE.Hand, gains: TE.Hand, s: TE.BoardSnapshot, roll: int, p: TE.PlayerID)
    requires counts.Keys == ProducingResources && TilesNamed(s)
    requires TE.CreditedBy(HandOf(counts), view, gains)
    requires forall n :: TE.Count(gains, n) == TE.Yield(s, s.tileOrder, roll, p, n)
    ensures Syncable(view, HandOf(counts))
    ensures forall r :: r in ProducingResources ==>
      Synced(counts[r], view, HandOf(counts), ResourceName(r).value) == counts[r] + TE.Yield(s, s.tileOrder, roll, p, ResourceName(r).value)
  {
    forall n | n in view && n !in ResourceNames
      ensures view[n] == TE.Count(HandOf(counts), n)
    {
      YieldOnlyNamed(s, s.tileOrder, roll, p, n);
    }
    forall r | r in ProducingResources
      ensures Synced(counts[r], view, HandOf(counts), ResourceName(r).value) == counts[r] + TE.Yield(s, s.tileOrder, roll, p, ResourceName(r).value)
    {
      SyncFromBaseline(counts, view, r);
    }
  }

  /** The robber id run_dice_phase stores: the engine's robber tile when it is truthy, else the old one. */
  function RobberWriteBack(moved: Option<int>, current: HexId): (h: HexId)
    ensures Truthy(moved) ==> h == moved.value
    ensures !Truthy(moved) ==> h == current
  {
    if Truthy(moved) then moved.value else current
  }

  /** A robber moved to tile 0 is not recorded: the game keeps its old robber hex. */
  lemma TileZeroNotWrittenBack(current: HexId)
    ensures RobberWriteBack(Some(0), current) == current
  {
  }

  /** The robber policy run_dice_phase hands the engine: the heuristic, defined where it does not raise. */
  function TargetPolicy(): (f: (TE.BoardSnapshot, TE.PlayerID) --> int)
    ensures forall s: TE.BoardSnapshot, c: TE.PlayerID :: Truthy(s.robberTileId) || s.tileOrder != [] ==> f.requires(s, c) && f(s, c) == ChooseRobberTarget(s, c)
  {
    (s: TE.BoardSnapshot, c: TE.PlayerID) requires Truthy(s.robberTileId) || s.tileOrder != [] => ChooseRobberTarget(s, c)
  }

  /** Keys listed by an order of the rendered ids 0..n-1 are exactly the player ids. */
  lemma IdsCoverPlayers(keys: set<TE.PlayerID>, order: seq<TE.PlayerID>)
    requires forall i :: 0 <= i < |order| ==> order[i] == ShowInt(i)
    requires forall p :: p in keys <==> p in order
    ensures keys == PlayerIds(|order|)
  {
    forall p | p in PlayerIds(|order|)
      ensures p in keys
    {
      var i :| 0 <= i < |order| && p == ShowInt(i);
      assert order[i] == p;
    }
  }

  /**
   * The views and baselines of run_dice_phase, filed in player order under
   * str(id), each baseline the player's counts by name.
   */
  ghost predicate Baselined(g: GameState, views: map<TE.PlayerID, TE.PlayerView>, order: seq<TE.PlayerID>,
                            baselines: map<TE.PlayerID, TE.Hand>)
    reads g.players
  {
    && (forall i :: 0 <= i < |order| ==> order[i] in views)
    && HandsRecorded(g, order, baselines)
  }

  /** The order lists the players' ids in turn, and each id's baseline is that player's counts. */
  ghost predicate HandsRecorded(g: GameState, order: seq<TE.PlayerID>, baselines: map<TE.PlayerID, TE.Hand>)
    reads g.players
  {
    && |order| == |g.players| && (forall i :: 0 <= i < |order| ==> order[i] == ShowInt(i))
    && HandsTaken(g, baselines)
  }

  /** Each player's hand is filed under its id. */
  ghost predicate HandsTaken(g: GameState, hands: map<TE.PlayerID, TE.Hand>)
    reads g.players
  {
    forall i :: 0 <= i < |g.players| ==> ShowInt(i) in hands && hands[ShowInt(i)] == HandOf(g.players[i].resources)
  }

  /** The hand of each filed view, by id. */
  ghost function ViewHands(views: map<TE.PlayerID, TE.PlayerView>): (hands: map<TE.PlayerID, TE.Hand>)
    reads views.Values
    ensures hands.Keys == views.Keys
  {
    map p | p in views :: views[p].resources
  }

  /**
   * A seven carried through to the players: the robber went to a tile and the
   * steal there took the hands from discarded to hands, and every player now
   * holds, resource by resource, the count of its view's final hand.
   */
  ghost predicate SevenStored(g: GameState, board: TE.BoardSnapshot, current: TE.PlayerID, discards: map<TE.PlayerID, TE.Hand>,
                              discarded: map<TE.PlayerID, TE.Hand>, hands: map<TE.PlayerID, TE.Hand>, e: TE.SevenEvents)
    reads g.players
  {
    && StealAt(board, current, discards, discarded, hands, e)
    && forall i, r :: 0 <= i < |g.players| && r in ProducingResources ==>
         ShowInt(i) in hands && r in g.players[i].resources && g.players[i].resources[r] == TE.Count(hands[ShowInt(i)], ResourceName(r).value)
  }

  /** Views that still hold their baselines have the baselines as their hands. */
  lemma ViewHandsAtBaselines(views: map<TE.PlayerID, TE.PlayerView>, baselines: map<TE.PlayerID, TE.Hand>)
    requires baselines.Keys == views.Keys
    requires forall p :: p in views && p in baselines ==> views[p].resources == baselines[p]
    ensures ViewHands(views) == baselines
  {
  }

  /**
   * The robber part of a seven as seen from the snapshot: the robber went to a
   * tile, the events report the discards made, and the steal at that tile's
   * corners took the hands from discarded to after.
   */
  ghost predicate StealAt(board: TE.BoardSnapshot, current: TE.PlayerID, discards: map<TE.PlayerID, TE.Hand>,
                          discarded: map<TE.PlayerID, TE.Hand>, after: map<TE.PlayerID, TE.Hand>, e: TE.SevenEvents) {
    && e.movedTo in board.tiles && e.discards == discards
    && TE.StealOutcome(board.vertexOwners, board.tiles[e.movedTo].vertices, current, TE.RandomSteal, discarded, after, e.steal)
  }

  /** Every hand names only the five resources. */
  ghost predicate BaselinesNamed(hands: map<TE.PlayerID, TE.Hand>) {
    forall p, n :: p in hands && n in hands[p] ==> n in ResourceNames
  }

  /** No card is held under a name outside the five. */
  ghost predicate NamesKnown(hands: map<TE.PlayerID, TE.Hand>) {
    forall p, n :: p in hands && n !in ResourceNames ==> TE.Count(hands[p], n) == 0
  }

  /** The random discard takes only cards held and leaves no negative count, so unknown names stay empty. */
  lemma DiscardKeepsNames(before: map<TE.PlayerID, TE.Hand>, discarded: map<TE.PlayerID, TE.Hand>, discards: map<TE.PlayerID, TE.Hand>)
    requires NamesKnown(before) && TE.DiscardedAll(TE.RandomDiscard, before, discarded, discards)
    ensures NamesKnown(discarded)
  {
  }

  /** The random steal names a card the victim holds, so it moves a known name and unknown names stay empty. */
  lemma StealKeepsNames(owners: map<string, TE.VertexOwner>, vs: seq<string>, current: TE.PlayerID,
                        discarded: map<TE.PlayerID, TE.Hand>, after: map<TE.PlayerID, TE.Hand>, stolen: Option<(TE.PlayerID, TE.ResName)>)
    requires NamesKnown(discarded) && TE.StealOutcome(owners, vs, current, TE.RandomSteal, discarded, after, stolen)
    ensures NamesKnown(after)
  {
  }

  /**
   * After a seven under the random policies, every player's final hand can be
   * copied onto the hand it started from: an unknown name holds no card, so
   * the copy never reads one.
   */
  lemma SevenSyncable(before: map<TE.PlayerID, TE.Hand>, discarded: map<TE.PlayerID, TE.Hand>, discards: map<TE.PlayerID, TE.Hand>,
                      owners: map<string, TE.VertexOwner>, vs: seq<string>, current: TE.PlayerID,
                      after: map<TE.PlayerID, TE.Hand>, stolen: Option<(TE.PlayerID, TE.ResName)>)
    requires BaselinesNamed(before) && TE.DiscardedAll(TE.RandomDiscard, before, discarded, discards)
    requires TE.StealOutcome(owners, vs, current, TE.RandomSteal, discarded, after, stolen)
    ensures after.Keys == before.Keys
    ensures forall p :: p in after ==> Syncable(after[p], before[p])
  {
    DiscardKeepsNames(before, discarded, discards);
    StealKeepsNames(owners, vs, current, discarded, after, stolen);
    forall p, n | p in after && n in after[p] && n !in ResourceNames
      ensures after[p][n] == TE.Count(before[p], n)
    {
      assert TE.Count(after[p], n) == 0;
    }
  }

  /** A steal on the moved board happened at the snapshot's corners, which the move leaves alone. */
  lemma StealOnSnapshot(board: TE.BoardSnapshot, moved: TE.BoardSnapshot, current: TE.PlayerID, discards: map<TE.PlayerID, TE.Hand>,
                        discarded: map<TE.PlayerID, TE.Hand>, after: map<TE.PlayerID, TE.Hand>, e: TE.SevenEvents)
    requires TE.RobberMoved(board, e.movedTo, moved) && e.discards == discards
    requires TE.StealOutcome(moved.vertexOwners, moved.tiles[e.movedTo].vertices, current, TE.RandomSteal, discarded, after, e.steal)
    ensures StealAt(board, current, discards, discarded, after, e)
  {
  }

  /** The engine's hands are those of the views it holds. */
  lemma EngineHands(engine: TE.TurnEngine)
    ensures engine.Hands() == ViewHands(engine.players)
  {
  }

  /** Every filed view has grown from its baseline by exactly its share of the gains. */
  ghost predicate CreditedAll(views: map<TE.PlayerID, TE.PlayerView>, order: seq<TE.PlayerID>,
                              baselines: map<TE.PlayerID, TE.Hand>, gains: map<TE.PlayerID, TE.Hand>)
    reads views.Values
  {
    forall i :: 0 <= i < |order| && order[i] in views && order[i] in baselines ==>
      TE.CreditedBy(baselines[order[i]], views[order[i]].resources, TE.GainsOf(gains, order[i]))
  }

  /** The gains are the board's yield for the roll, player by player and name by name. */
  ghost predicate YieldGains(gains: map<TE.PlayerID, TE.Hand>, board: TE.BoardSnapshot, roll: int) {
    forall p, n :: TE.Count(TE.GainsOf(gains, p), n) == TE.Yield(board, board.tileOrder, roll, p, n)
  }

  /** Views filed from players with valid holdings are valid, carry their own ids and start at their baselines. */
  lemma ViewsReady(g: GameState, views: map<TE.PlayerID, TE.PlayerView>, order: seq<TE.PlayerID>,
                   baselines: map<TE.PlayerID, TE.Hand>)
    requires g.HoldingsValid() && |order| == |g.players|
    requires forall i :: 0 <= i < |order| ==> order[i] == ShowInt(i)
    requires forall p :: p in views <==> p in order
    requires forall i :: 0 <= i < |order| ==> Filed(views, baselines, order[i], g.players[i].name, HandOf(g.players[i].resources))
    ensures Baselined(g, views, order, baselines)
    ensures forall p :: p in views ==> views[p].Valid() && views[p].playerId == p
    ensures forall p :: p in views && p in baselines ==> views[p].resources == baselines[p]
  {
    forall p | p in views
      ensures views[p].Valid() && views[p].playerId == p
      ensures p in baselines ==> views[p].resources == baselines[p]
    {
      var i :| 0 <= i < |order| && order[i] == p;
      assert Filed(views, baselines, order[i], g.players[i].name, HandOf(g.players[i].resources));
      assert g.players[i].Valid();
    }
  }

  /**
   * The engine run_dice_phase builds: the views and baselines of the players,
   * an engine over them and the board's snapshot, with the heuristic as robber
   * policy and the random discard and steal policies.
   */
  method NewEngine(g: GameState, board: TE.BoardSnapshot)
    returns (engine: TE.TurnEngine, views: map<TE.PlayerID, TE.PlayerView>, order: seq<TE.PlayerID>, baselines: map<TE.PlayerID, TE.Hand>)
    requires forall i :: 0 <= i < |g.players| ==> g.players[i].id == i
    requires g.HoldingsValid() && TE.Ordered(board) && TE.OwnedBy(board, PlayerIds(|g.players|))
    ensures fresh(engine) && engine.Valid()
    ensures engine.players == views && engine.order == order && engine.board == board
    ensures engine.chooseRobberTarget == TargetPolicy()
    ensures engine.chooseDiscard == TE.RandomDiscard && engine.chooseSteal == TE.RandomSteal
    ensures forall p :: p in views ==> fresh(views[p])
    ensures Baselined(g, views, order, baselines)
    ensures baselines.Keys == views.Keys == PlayerIds(|g.players|)
    ensures forall p :: p in views && p in baselines ==> views[p].resources == baselines[p]
    ensures BaselinesNamed(baselines)
  {
    views, order, baselines := BuildPlayerViews(g);
    forall p, n | p in baselines && n in baselines[p]
      ensures n in ResourceNames
    {
      var k :| 0 <= k < |order| && order[k] == p;
    }
    IdsCoverPlayers(views.Keys, order);
    ViewsReady(g, views, order, baselines);
    engine := new TE.TurnEngine(views, order, board, TargetPolicy(), TE.RandomDiscard, TE.RandomSteal);
    assert engine.Shaped();
  }

  /** On a non-seven roll every view is credited with exactly its yield, so every copy succeeds and adds the yield. */
  lemma ProducedCopies(g: GameState, views: map<TE.PlayerID, TE.PlayerView>, order: seq<TE.PlayerID>,
                       baselines: map<TE.PlayerID, TE.Hand>, s: TE.BoardSnapshot, roll: int, gains: map<TE.PlayerID, TE.Hand>)
    requires g.HoldingsValid() && TilesNamed(s) && YieldGains(gains, s, roll)
    requires Baselined(g, views, order, baselines) && CreditedAll(views, order, baselines, gains)
    ensures forall i :: 0 <= i < |order| ==> Syncable(views[order[i]].resources, baselines[order[i]])
    ensures forall i, r :: 0 <= i < |order| && r in ProducingResources ==>
      Synced(g.players[i].resources[r], views[order[i]].resources, baselines[order[i]], ResourceName(r).value)
      == g.players[i].resources[r] + TE.Yield(s, s.tileOrder, roll, ShowInt(i), ResourceName(r).value)
  {
    forall i | 0 <= i < |order|
      ensures Syncable(views[order[i]].resources, baselines[order[i]])
      ensures forall r :: r in ProducingResources ==>
        Synced(g.players[i].resources[r], views[order[i]].resources, baselines[order[i]], ResourceName(r).value)
        == g.players[i].resources[r] + TE.Yield(s, s.tileOrder, roll, ShowInt(i), ResourceName(r).value)
    {
      assert g.players[i].Valid();
      ProductionSyncs(g.players[i].resources, views[order[i]].resources, TE.GainsOf(gains, order[i]), s, roll, order[i]);
    }
  }

  /**
   * The engine part of run_dice_phase on a 7: the discards from the hands going
   * in, then, when the heuristic's target is a tile, the move there and the
   * steal at its corners; otherwise the hands stay as the discards left them.
   */
  method EngineSeven(g: GameState, board: TE.BoardSnapshot, current: PlayerId)
    returns (events: Result<TE.DiceEvents>, views: map<TE.PlayerID, TE.PlayerView>, order: seq<TE.PlayerID>,
             baselines: map<TE.PlayerID, TE.Hand>, robber: Option<int>,
             ghost discards: map<TE.PlayerID, TE.Hand>, ghost discarded: map<TE.PlayerID, TE.Hand>, ghost hands: map<TE.PlayerID, TE.Hand>)
    requires forall i :: 0 <= i < |g.players| ==> g.players[i].id == i
    requires g.HoldingsValid() && TE.Ordered(board) && TE.OwnedBy(board, PlayerIds(|g.players|))
    requires 0 <= current < |g.players| && (Truthy(board.robberTileId) || board.tileOrder != [])
    ensures old(HandsRecorded(g, order, baselines)) && baselines.Keys == views.Keys && BaselinesNamed(baselines)
    ensures forall i :: 0 <= i < |order| ==> order[i] in views
    ensures forall p :: p in views ==> fresh(views[p])
    ensures hands == ViewHands(views)
    ensures var t := ChooseRobberTarget(board, ShowInt(current));
      && TE.DiscardedAll(TE.RandomDiscard, baselines, discarded, discards)
      && (events.Success? <==> t in board.tiles)
      && (events.Success? ==>
            events.value.SevenRolled? && events.value.seven.movedTo == t && robber == Some(t)
            && StealAt(board, ShowInt(current), discards, discarded, hands, events.value.seven))
      && (events.Failure? ==> hands == discarded)
  {
    var engine;
    engine, views, order, baselines := NewEngine(g, board);
    ViewHandsAtBaselines(views, baselines);
    EngineHands(engine);
    ghost var before;
    events, before, discards, discarded, hands := engine.DicePhase(ShowInt(current), 7);
    robber := engine.board.robberTileId;
    EngineHands(engine);
    if events.Success? {
      StealOnSnapshot(board, engine.board, ShowInt(current), discards, discarded, hands, events.value.seven);
    }
  }

  /**
   * The engine part of run_dice_phase on any other roll: every view grows from
   * its baseline by its share of the board's yield, and the robber stays.
   */
  method EngineProduce(g: GameState, board: TE.BoardSnapshot, current: PlayerId, roll: int)
    returns (events: Result<TE.DiceEvents>, views: map<TE.PlayerID, TE.PlayerView>, order: seq<TE.PlayerID>,
             baselines: map<TE.PlayerID, TE.Hand>, robber: Option<int>)
    requires forall i :: 0 <= i < |g.players| ==> g.players[i].id == i
    requires g.HoldingsValid() && TE.Ordered(board) && TE.OwnedBy(board, PlayerIds(|g.players|)) && roll != 7
    ensures old(HandsRecorded(g, order, baselines)) && baselines.Keys == views.Keys
    ensures forall i :: 0 <= i < |order| ==> order[i] in views
    ensures forall p :: p in views ==> fresh(views[p])
    ensures events.Success? && events.value.Produced? && events.value.roll == roll && robber == board.robberTileId
    ensures CreditedAll(views, order, baselines, events.value.gains) && YieldGains(events.value.gains, board, roll)
  {
    var engine;
    engine, views, order, baselines := NewEngine(g, board);
    label Built:
    var e, _, _, _, _ := engine.DicePhase(ShowInt(current), roll);
    events, robber := e, engine.board.robberTileId;
    forall i | 0 <= i < |order| && order[i] in views && order[i] in baselines
      ensures TE.CreditedBy(baselines[order[i]], views[order[i]].resources, TE.GainsOf(events.value.gains, order[i]))
    {
      assert old@Built(views[order[i]].resources) == baselines[order[i]];
    }
  }

  /**
   * The last two steps of run_dice_phase: copy the views back into the players
   * and store the robber tile the engine left (a tile id of 0 leaves the old
   * hex). After a production roll the copy cannot fail and every count grows
   * by exactly the board's yield.
   */
  method StoreOutcome(g: GameState, board: TE.BoardSnapshot, roll: int, gains: map<TE.PlayerID, TE.Hand>,
                      views: map<TE.PlayerID, TE.PlayerView>, order: seq<TE.PlayerID>,
                      baselines: map<TE.PlayerID, TE.Hand>, robber: Option<int>, ghost hands: map<TE.PlayerID, TE.Hand>)
    returns (ok: bool)
    requires g.HoldingsValid() && TilesNamed(board) && Baselined(g, views, order, baselines) && hands == ViewHands(views)
    requires forall i, j :: 0 <= i < j < |g.players| ==> g.players[i] != g.players[j]
    requires roll != 7 ==> CreditedAll(views, order, baselines, gains) && YieldGains(gains, board, roll)
    modifies g`robberHexId, g.players`resources
    ensures forall i :: 0 <= i < |g.players| ==> g.players[i].resources.Keys == ProducingResources
    ensures ok ==> g.robberHexId == RobberWriteBack(robber, old(g.robberHexId))
    ensures !ok ==> g.robberHexId == old(g.robberHexId)
    ensures ok <==> forall i :: 0 <= i < |order| ==> Syncable(hands[order[i]], baselines[order[i]])
    ensures ok ==> forall i, r :: 0 <= i < |g.players| && r in ProducingResources ==>
      ShowInt(i) in hands && g.players[i].resources[r] == TE.Count(hands[ShowInt(i)], ResourceName(r).value)
    ensures roll != 7 ==> ok && forall i, r :: 0 <= i < |g.players| && r in ProducingResources ==>
      g.players[i].resources[r] == old(g.players[i].resources[r]) + TE.Yield(board, board.tileOrder, roll, ShowInt(i), ResourceName(r).value)
  {
    if roll != 7 {
      ProducedCopies(g, views, order, baselines, board, roll, gains);
    }
    ok := SyncPlayerResources(g, views, order, baselines);
    if !ok {
      return;
    }
    forall i | 0 <= i < |g.players|
      ensures ShowInt(i) in hands && forall r :: r in ProducingResources ==>
        g.players[i].resources[r] == TE.Count(hands[ShowInt(i)], ResourceName(r).value)
    {
      assert order[i] == ShowInt(i) && old(baselines[ShowInt(i)] == HandOf(g.players[i].resources));
      SyncedExactly(g.players[i], old(g.players[i].resources), hands[order[i]]);
    }
    if roll != 7 {
      forall i, r | 0 <= i < |g.players| && r in ProducingResources
        ensures g.players[i].resources[r] == old(g.players[i].resources[r]) + TE.Yield(board, board.tileOrder, roll, ShowInt(i), ResourceName(r).value)
      {
        assert SyncedFrom(g.players[i], old(g.players[i].resources), views[order[i]].resources, baselines[order[i]]);
      }
    }
    g.robberHexId := RobberWriteBack(robber, g.robberHexId);
  }

  /**
   * run_dice_phase once the board's snapshot is taken: run the engine's dice
   * phase on fresh views, copy the counts back and store the robber tile. The
   * two outcomes of the engine's dice_phase are taken one at a time. The ghost
   * results follow a 7: before holds every player's hand going in, discarded
   * the hands after the discards, hands the views' hands at the end.
   */
  method DicePhaseOnSnapshot(g: GameState, board: TE.BoardSnapshot, current: PlayerId, roll: int)
    returns (events: Result<TE.DiceEvents>, ghost before: map<TE.PlayerID, TE.Hand>, ghost discards: map<TE.PlayerID, TE.Hand>,
             ghost discarded: map<TE.PlayerID, TE.Hand>, ghost hands: map<TE.PlayerID, TE.Hand>)
    requires forall i :: 0 <= i < |g.players| ==> g.players[i].id == i
    requires forall i, j :: 0 <= i < j < |g.players| ==> g.players[i] != g.players[j]
    requires g.HoldingsValid() && TilesNamed(board)
    requires TE.Ordered(board) && TE.OwnedBy(board, PlayerIds(|g.players|))
    requires roll == 7 ==> 0 <= current < |g.players| && (Truthy(board.robberTileId) || board.tileOrder != [])
    modifies g`robberHexId, g.players`resources
    ensures forall i :: 0 <= i < |g.players| ==> g.players[i].resources.Keys == ProducingResources
    ensures roll != 7 ==>
      && events.Success? && events.value.Produced? && events.value.roll == roll
      && g.robberHexId == RobberWriteBack(board.robberTileId, old(g.robberHexId))
      && forall i, r :: 0 <= i < |g.players| && r in ProducingResources ==>
           g.players[i].resources[r] == old(g.players[i].resources[r]) + TE.Yield(board, board.tileOrder, roll, ShowInt(i), ResourceName(r).value)
    ensures roll == 7 ==>
      var t := ChooseRobberTarget(board, ShowInt(current));
      && old(HandsTaken(g, before))
      && TE.DiscardedAll(TE.RandomDiscard, before, discarded, discards)
      && (events.Success? <==> t in board.tiles)
      && (events.Failure? ==> g.robberHexId == old(g.robberHexId) && unchanged(g.players))
      && (events.Success? ==>
            events.value.SevenRolled? && events.value.seven.movedTo == t && t in board.tiles
            && g.robberHexId == RobberWriteBack(Some(t), old(g.robberHexId))
            && SevenStored(g, board, ShowInt(current), discards, discarded, hands, events.value.seven))
  {
    if roll == 7 {
      events, before, discards, discarded, hands := SevenOnSnapshot(g, board, current);
    } else {
      events := ProduceOnSnapshot(g, board, current, roll);
      before, discards, discarded, hands := map[], map[], map[], map[];
    }
  }

  /**
   * run_dice_phase on a 7 once the snapshot is taken: the engine's discards,
   * robber move and steal on fresh views, then the copy back and the robber
   * tile stored. A target that is not a tile fails before anything is copied.
   */
  method SevenOnSnapshot(g: GameState, board: TE.BoardSnapshot, current: PlayerId)
    returns (events: Result<TE.DiceEvents>, ghost before: map<TE.PlayerID, TE.Hand>, ghost discards: map<TE.PlayerID, TE.Hand>,
             ghost discarded: map<TE.PlayerID, TE.Hand>, ghost hands: map<TE.PlayerID, TE.Hand>)
    requires forall i :: 0 <= i < |g.players| ==> g.players[i].id == i
    requires forall i, j :: 0 <= i < j < |g.players| ==> g.players[i] != g.players[j]
    requires g.HoldingsValid() && TilesNamed(board)
    requires TE.Ordered(board) && TE.OwnedBy(board, PlayerIds(|g.players|))
    requires 0 <= current < |g.players| && (Truthy(board.robberTileId) || board.tileOrder != [])
    modifies g`robberHexId, g.players`resources
    ensures forall i :: 0 <= i < |g.players| ==> g.players[i].resources.Keys == ProducingResources
    ensures old(HandsTaken(g, before))
    ensures var t := ChooseRobberTarget(board, ShowInt(current));
      && TE.DiscardedAll(TE.RandomDiscard, before, discarded, discards)
      && (events.Success? <==> t in board.tiles)
      && (events.Failure? ==> g.robberHexId == old(g.robberHexId) && unchanged(g.players))
      && (events.Success? ==>
            events.value.SevenRolled? && events.value.seven.movedTo == t && t in board.tiles
            && g.robberHexId == RobberWriteBack(Some(t), old(g.robberHexId))
            && SevenStored(g, board, ShowInt(current), discards, discarded, hands, events.value.seven))
  {
    var views, order, baselines, robber;
    events, views, order, baselines, robber, discards, discarded, hands := EngineSeven(g, board, current);
    before := baselines;
    if events.Failure? {
      return;
    }
    var _ := StoreSeven(g, board, ShowInt(current), events.value.seven, views, order, baselines, robber, discards, discarded, hands);
  }

  /** The copy back and the robber store after a seven that went through: each player ends with its view's counts. */
  method StoreSeven(g: GameState, board: TE.BoardSnapshot, current: TE.PlayerID, e: TE.SevenEvents,
                    views: map<TE.PlayerID, TE.PlayerView>, order: seq<TE.PlayerID>, baselines: map<TE.PlayerID, TE.Hand>,
                    robber: Option<int>, ghost discards: map<TE.PlayerID, TE.Hand>, ghost discarded: map<TE.PlayerID, TE.Hand>,
                    ghost hands: map<TE.PlayerID, TE.Hand>) returns (ok: bool)
    requires g.HoldingsValid() && TilesNamed(board) && Baselined(g, views, order, baselines) && hands == ViewHands(views)
    requires forall i, j :: 0 <= i < j < |g.players| ==> g.players[i] != g.players[j]
    requires StealAt(board, current, discards, discarded, hands, e)
    requires BaselinesNamed(baselines) && TE.DiscardedAll(TE.RandomDiscard, baselines, discarded, discards)
    modifies g`robberHexId, g.players`resources
    ensures forall i :: 0 <= i < |g.players| ==> g.players[i].resources.Keys == ProducingResources
    ensures ok && g.robberHexId == RobberWriteBack(robber, old(g.robberHexId))
    ensures SevenStored(g, board, current, discards, discarded, hands, e)
  {
    SevenSyncable(baselines, discarded, discards, board.vertexOwners, board.tiles[e.movedTo].vertices, current, hands, e.steal);
    ok := StoreOutcome(g, board, 7, map[], views, order, baselines, robber, hands);
  }

  /**
   * run_dice_phase on any other roll once the snapshot is taken: the engine's
   * production on fresh views, then the copy back, which cannot fail and adds
   * exactly the board's yield, and the robber tile stored as it was.
   */
  method ProduceOnSnapshot(g: GameState, board: TE.BoardSnapshot, current: PlayerId, roll: int) returns (events: Result<TE.DiceEvents>)
    requires forall i :: 0 <= i < |g.players| ==> g.players[i].id == i
    requires forall i, j :: 0 <= i < j < |g.players| ==> g.players[i] != g.players[j]
    requires g.HoldingsValid() && TilesNamed(board)
    requires TE.Ordered(board) && TE.OwnedBy(board, PlayerIds(|g.players|)) && roll != 7
    modifies g`robberHexId, g.players`resources
    ensures forall i :: 0 <= i < |g.players| ==> g.players[i].resources.Keys == ProducingResources
    ensures events.Success? && events.value.Produced? && events.value.roll == roll
    ensures g.robberHexId == RobberWriteBack(board.robberTileId, old(g.robberHexId))
    ensures forall i, r :: 0 <= i < |g.players| && r in ProducingResources ==>
      g.players[i].resources[r] == old(g.players[i].resources[r]) + TE.Yield(board, board.tileOrder, roll, ShowInt(i), ResourceName(r).value)
  {
    var views, order, baselines, robber;
    events, views, order, baselines, robber := EngineProduce(g, board, current, roll);
    var _ := StoreOutcome(g, board, roll, events.value.gains, views, order, baselines, robber, ViewHands(views));
  }

  /**
   * run_dice_phase with the roll given: snapshot the board, run the engine's
   * dice phase, copy the counts back and store the robber hex. A non-seven
   * roll raises each player's counts by exactly the board's yield and leaves
   * the robber; a seven moves the robber to the heuristic's target, and fails
   * with nothing changed when that target is not a hex.
   */
  method RunDicePhase(g: GameState, current: PlayerId, roll: int)
    returns (events: Result<TE.DiceEvents>, ghost before: map<TE.PlayerID, TE.Hand>, ghost discards: map<TE.PlayerID, TE.Hand>,
             ghost discarded: map<TE.PlayerID, TE.Hand>, ghost hands: map<TE.PlayerID, TE.Hand>)
    requires g.Valid() && g.HoldingsValid() && OwnersArePlayers(g.board, |g.players|)
    requires roll == 7 ==> 0 <= current < |g.players| && (g.robberHexId != 0 || g.board.hexOrder != [])
    modifies g`robberHexId, g.players`resources
    ensures forall i :: 0 <= i < |g.players| ==> g.players[i].resources.Keys == ProducingResources
    ensures roll != 7 ==>
      var s := BuildBoardSnapshot(g.board, old(g.robberHexId));
      && events.Success? && events.value.Produced? && events.value.roll == roll
      && g.robberHexId == old(g.robberHexId)
      && forall i, r :: 0 <= i < |g.players| && r in ProducingResources ==>
           g.players[i].resources[r] == old(g.players[i].resources[r]) + TE.Yield(s, s.tileOrder, roll, ShowInt(i), ResourceName(r).value)
    ensures roll == 7 ==>
      var s := BuildBoardSnapshot(g.board, old(g.robberHexId));
      var t := ChooseRobberTarget(s, ShowInt(current));
      && old(HandsTaken(g, before))
      && TE.DiscardedAll(TE.RandomDiscard, before, discarded, discards)
      && (events.Success? <==> t in g.board.hexes)
      && (events.Failure? ==> g.robberHexId == old(g.robberHexId) && unchanged(g.players))
      && (events.Success? ==>
            events.value.SevenRolled? && events.value.seven.movedTo == t && t in g.board.hexes
            && g.robberHexId == RobberWriteBack(Some(t), old(g.robberHexId))
            && SevenStored(g, s, ShowInt(current), discards, discarded, hands, events.value.seven))
  {
    var board := BuildBoardSnapshot(g.board, g.robberHexId);
    SnapshotShaped(g.board, g.robberHexId, |g.players|);
    events, before, discards, discarded, hands := DicePhaseOnSnapshot(g, board, current, roll);
  }
}
