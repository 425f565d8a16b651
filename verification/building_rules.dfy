/**
 * The building rules of rules/building_rules.py: read-only checks of whether a
 * player may build a road, a settlement or a city. Each check answers with a
 * verdict and the reason of the first clause that failed. The player is given by
 * its id and its current state.
 */
module BuildingRules {
  import opened Wrappers
  import opened Enums
  import opened Board
  import opened Checks
  import opened Game

  /** What a road costs: 1 lumber and 1 brick. */
  const RoadCost: map<Resource, int> := map[Lumber := 1, Brick := 1]

  /** What a settlement costs: 1 each of lumber, brick, grain and wool. */
  const SettlementCost: map<Resource, int> := map[Lumber := 1, Brick := 1, Grain := 1, Wool := 1]

  /** What a city costs: 2 grain and 3 ore. */
  const CityCost: map<Resource, int> := map[Grain := 2, Ore := 3]

  /** Every cost names producing resources only, so a player holding every kind can be asked about it. */
  lemma CostsAreProducing()
    ensures RoadCost.Keys <= ProducingResources
    ensures SettlementCost.Keys <= ProducingResources
    ensures CityCost.Keys <= ProducingResources
  {
  }

  // ---------------------------------------------------------------------------
  // Connectivity and the distance rule
  // ---------------------------------------------------------------------------

  /**
   * _is_vertex_connected_to_player: the corner exists and either holds a structure
   * of the player, or one of its roads is the player's and leads to a corner that
   * holds a structure of the player.
   */
  predicate ConnectedToPlayer(b: BoardGraph, pid: PlayerId, v: VertexId) {
    && v in b.vertices
    && (|| b.vertices[v].owner == Some(pid)
        || exists e :: e in b.vertices[v].edgeIds && e in b.edges && b.edges[e].owner == Some(pid)
                       && OtherEnd(b, e, v) in b.vertices && b.vertices[OtherEnd(b, e, v)].owner == Some(pid))
  }

  /** _is_vertex_connected_by_road: the corner exists and one of its roads is the player's. */
  predicate ConnectedByRoad(b: BoardGraph, pid: PlayerId, v: VertexId) {
    v in b.vertices && exists e :: e in b.vertices[v].edgeIds && e in b.edges && b.edges[e].owner == Some(pid)
  }

  /** _check_distance_rule: the corner exists and no neighbour holds a structure. */
  predicate DistanceRule(b: BoardGraph, v: VertexId)
    requires WellFormed(b)
  {
    v in b.vertices && NeighboursFree(b, v)
  }

  /**
   * On a well-formed board the corner-side reading of ConnectedToPlayer agrees with
   * one over the whole road map: the player's structure is at v, or a road of the
   * player joins v to another corner holding a structure of the player.
   */
  lemma ConnectedToPlayerIffRoadToOwn(b: BoardGraph, pid: PlayerId, v: VertexId)
    requires WellFormed(b)
    ensures ConnectedToPlayer(b, pid, v) <==>
      v in b.vertices
      && (|| b.vertices[v].owner == Some(pid)
          || exists e :: e in b.edges && (b.edges[e].v1 == v || b.edges[e].v2 == v) && b.edges[e].owner == Some(pid)
                         && b.vertices[OtherEnd(b, e, v)].owner == Some(pid))
  {
    if v in b.vertices {
      if exists e :: e in b.edges && (b.edges[e].v1 == v || b.edges[e].v2 == v) && b.edges[e].owner == Some(pid)
                     && b.vertices[OtherEnd(b, e, v)].owner == Some(pid) {
        var e :| e in b.edges && (b.edges[e].v1 == v || b.edges[e].v2 == v) && b.edges[e].owner == Some(pid)
                 && b.vertices[OtherEnd(b, e, v)].owner == Some(pid);
        assert e in b.vertices[v].edgeIds;
      }
    }
  }

  /** Likewise for ConnectedByRoad: some road of the player ends at v. */
  lemma ConnectedByRoadIffIncidentRoad(b: BoardGraph, pid: PlayerId, v: VertexId)
    requires WellFormed(b)
    ensures ConnectedByRoad(b, pid, v) <==>
      v in b.vertices && exists e :: e in b.edges && (b.edges[e].v1 == v || b.edges[e].v2 == v) && b.edges[e].owner == Some(pid)
  {
    if v in b.vertices {
      if exists e :: e in b.edges && (b.edges[e].v1 == v || b.edges[e].v2 == v) && b.edges[e].owner == Some(pid) {
        var e :| e in b.edges && (b.edges[e].v1 == v || b.edges[e].v2 == v) && b.edges[e].owner == Some(pid);
        assert e in b.vertices[v].edgeIds;
      }
    }
  }

  /** The distance rule holds exactly at an existing corner no road of which leads to an occupied corner. */
  lemma DistanceRuleIffNoRoadToOccupied(b: BoardGraph, v: VertexId)
    requires WellFormed(b)
    ensures DistanceRule(b, v) <==>
      v in b.vertices
      && forall e :: e in b.edges && (b.edges[e].v1 == v || b.edges[e].v2 == v) ==> b.vertices[OtherEnd(b, e, v)].owner.None?
  {
    if v in b.vertices {
      NeighboursFreeIffNoRoadToOwned(b, v);
    }
  }

  // ---------------------------------------------------------------------------
  // The three checks
  // ---------------------------------------------------------------------------

  /** can_build_road for player pid holding state p. */
  function CanBuildRoad(b: BoardGraph, pid: PlayerId, p: PlayerState, e: EdgeId): (bool, string)
    requires RoadCost.Keys <= p.resources.Keys
  {
    if e !in b.edges then (false, "Invalid edge ID")
    else if b.edges[e].owner.Some? then (false, "Edge already has a road")
    else if !Covers(p.resources, RoadCost) then (false, "Insufficient resources (need 1 Lumber + 1 Brick)")
    else if p.roadsRemaining <= 0 then (false, "No roads remaining")
    else if !(ConnectedToPlayer(b, pid, b.edges[e].v1) || ConnectedToPlayer(b, pid, b.edges[e].v2)) then
      (false, "Road must connect to your existing road or settlement/city")
    else (true, "Valid road placement")
  }

  /** The road checks run in this order and the first failure's reason is reported. */
  lemma RoadCheckOrder(b: BoardGraph, pid: PlayerId, p: PlayerState, e: EdgeId)
    requires RoadCost.Keys <= p.resources.Keys
    ensures CanBuildRoad(b, pid, p, e) == FirstFailure([
      (e in b.edges, "Invalid edge ID"),
      (e !in b.edges || b.edges[e].owner.None?, "Edge already has a road"),
      (Covers(p.resources, RoadCost), "Insufficient resources (need 1 Lumber + 1 Brick)"),
      (p.roadsRemaining > 0, "No roads remaining"),
      (e !in b.edges || ConnectedToPlayer(b, pid, b.edges[e].v1) || ConnectedToPlayer(b, pid, b.edges[e].v2),
       "Road must connect to your existing road or settlement/city")],
      "Valid road placement")
  {
    FirstFailure5(
      (e in b.edges, "Invalid edge ID"),
      (e !in b.edges || b.edges[e].owner.None?, "Edge already has a road"),
      (Covers(p.resources, RoadCost), "Insufficient resources (need 1 Lumber + 1 Brick)"),
      (p.roadsRemaining > 0, "No roads remaining"),
      (e !in b.edges || ConnectedToPlayer(b, pid, b.edges[e].v1) || ConnectedToPlayer(b, pid, b.edges[e].v2),
       "Road must connect to your existing road or settlement/city"),
      "Valid road placement");
  }

  /**
   * An accepted road is a free road slot, the player holds a lumber and a brick and
   * has a road in hand, and one of its ends joins the player's network.
   */
  lemma RoadAccepted(b: BoardGraph, pid: PlayerId, p: PlayerState, e: EdgeId)
    requires RoadCost.Keys <= p.resources.Keys && CanBuildRoad(b, pid, p, e).0
    ensures e in b.edges && b.edges[e].owner.None?
    ensures p.resources[Lumber] >= 1 && p.resources[Brick] >= 1 && p.roadsRemaining > 0
    ensures ConnectedToPlayer(b, pid, b.edges[e].v1) || ConnectedToPlayer(b, pid, b.edges[e].v2)
  {
    assert Lumber in RoadCost && Brick in RoadCost;
  }

  /** can_build_settlement for player pid holding state p. */
  function CanBuildSettlement(b: BoardGraph, pid: PlayerId, p: PlayerState, v: VertexId): (bool, string)
    requires WellFormed(b) && SettlementCost.Keys <= p.resources.Keys
  {
    if v !in b.vertices then (false, "Invalid vertex ID")
    else if b.vertices[v].owner.Some? then (false, "Vertex already occupied")
    else if !DistanceRule(b, v) then (false, "Too close to another settlement (distance rule violation)")
    else if !Covers(p.resources, SettlementCost) then
      (false, "Insufficient resources (need 1 Lumber + 1 Brick + 1 Grain + 1 Wool)")
    else if p.settlementsRemaining <= 0 then (false, "No settlements remaining")
    else if !ConnectedByRoad(b, pid, v) then (false, "Settlement must be connected by your road")
    else (true, "Valid settlement placement")
  }

  /** The settlement checks run in this order and the first failure's reason is reported. */
  lemma SettlementCheckOrder(b: BoardGraph, pid: PlayerId, p: PlayerState, v: VertexId)
    requires WellFormed(b) && SettlementCost.Keys <= p.resources.Keys
    ensures CanBuildSettlement(b, pid, p, v) == FirstFailure([
      (v in b.vertices, "Invalid vertex ID"),
      (v !in b.vertices || b.vertices[v].owner.None?, "Vertex already occupied"),
      (v !in b.vertices || DistanceRule(b, v), "Too close to another settlement (distance rule violation)"),
      (Covers(p.resources, SettlementCost), "Insufficient resources (need 1 Lumber + 1 Brick + 1 Grain + 1 Wool)"),
      (p.settlementsRemaining > 0, "No settlements remaining"),
      (ConnectedByRoad(b, pid, v), "Settlement must be connected by your road")],
      "Valid settlement placement")
  {
    FirstFailure6(
      (v in b.vertices, "Invalid vertex ID"),
      (v !in b.vertices || b.vertices[v].owner.None?, "Vertex already occupied"),
      (v !in b.vertices || DistanceRule(b, v), "Too close to another settlement (distance rule violation)"),
      (Covers(p.resources, SettlementCost), "Insufficient resources (need 1 Lumber + 1 Brick + 1 Grain + 1 Wool)"),
      (p.settlementsRemaining > 0, "No settlements remaining"),
      (ConnectedByRoad(b, pid, v), "Settlement must be connected by your road"),
      "Valid settlement placement");
  }

  /**
   * A settlement that may be built in the main game may also be placed as an
   * initial settlement: the main-game check only adds cost, supply and road clauses.
   */
  lemma SettlementAcceptedIsInitialPlaceable(b: BoardGraph, pid: PlayerId, p: PlayerState, v: VertexId)
    requires WellFormed(b) && SettlementCost.Keys <= p.resources.Keys && CanBuildSettlement(b, pid, p, v).0
    ensures CanPlaceInitialSettlement(b, v).0
    ensures ConnectedByRoad(b, pid, v) && p.settlementsRemaining > 0
  {
  }

  /** can_upgrade_to_city for player pid holding state p. */
  function CanUpgradeToCity(b: BoardGraph, pid: PlayerId, p: PlayerState, v: VertexId): (bool, string)
    requires CityCost.Keys <= p.resources.Keys
  {
    if v !in b.vertices then (false, "Invalid vertex ID")
    else if b.vertices[v].owner != Some(pid) then (false, "You don't own a settlement at this vertex")
    else if b.vertices[v].isCity then (false, "Already a city")
    else if !Covers(p.resources, CityCost) then (false, "Insufficient resources (need 2 Grain + 3 Ore)")
    else if p.citiesRemaining <= 0 then (false, "No cities remaining")
    else (true, "Valid city upgrade")
  }

  /** The city checks run in this order and the first failure's reason is reported. */
  lemma CityCheckOrder(b: BoardGraph, pid: PlayerId, p: PlayerState, v: VertexId)
    requires CityCost.Keys <= p.resources.Keys
    ensures CanUpgradeToCity(b, pid, p, v) == FirstFailure([
      (v in b.vertices, "Invalid vertex ID"),
      (v !in b.vertices || b.vertices[v].owner == Some(pid), "You don't own a settlement at this vertex"),
      (v !in b.vertices || !b.vertices[v].isCity, "Already a city"),
      (Covers(p.resources, CityCost), "Insufficient resources (need 2 Grain + 3 Ore)"),
      (p.citiesRemaining > 0, "No cities remaining")],
      "Valid city upgrade")
  {
    FirstFailure5(
      (v in b.vertices, "Invalid vertex ID"),
      (v !in b.vertices || b.vertices[v].owner == Some(pid), "You don't own a settlement at this vertex"),
      (v !in b.vertices || !b.vertices[v].isCity, "Already a city"),
      (Covers(p.resources, CityCost), "Insufficient resources (need 2 Grain + 3 Ore)"),
      (p.citiesRemaining > 0, "No cities remaining"),
      "Valid city upgrade");
  }
}
