/**
 * The building service of services/building_service.py: carrying out a road,
 * settlement or city build once the building rules allow it, the CPU's choice
 * of where to build, and the cached table of which corners touch which
 * resource.
 */
module BuildingService {
  import opened Wrappers
  import opened Enums
  import opened Board
  import opened Strings
  import opened Game
  import opened BuildingRules
  import opened Walks
  import opened Pathfinding

  // ---------------------------------------------------------------------------
  // A player's pieces: in hand, on the board, and the points they are worth
  // ---------------------------------------------------------------------------

  /** The roads of the player on the board. */
  ghost function RoadsOf(b: BoardGraph, pid: PlayerId): set<EdgeId> {
    set e | e in b.edges.Keys && b.edges[e].owner == Some(pid)
  }

  /** The corners holding a settlement of the player. */
  ghost function SettlementsOf(b: BoardGraph, pid: PlayerId): set<VertexId> {
    set v | v in b.vertices.Keys && b.vertices[v].owner == Some(pid) && !b.vertices[v].isCity
  }

  /** The corners holding a city of the player. */
  ghost function CitiesOf(b: BoardGraph, pid: PlayerId): set<VertexId> {
    set v | v in b.vertices.Keys && b.vertices[v].owner == Some(pid) && b.vertices[v].isCity
  }

  /**
   * What building never changes: roads, settlements and cities in hand plus those
   * on the board, and the points beyond one per settlement and two per city.
   */
  ghost function Tally(b: BoardGraph, pid: PlayerId, s: PlayerState): (int, int, int, int) {
    ( s.roadsRemaining + |RoadsOf(b, pid)|,
      s.settlementsRemaining + |SettlementsOf(b, pid)|,
      s.citiesRemaining + |CitiesOf(b, pid)|,
      s.victoryPoints - |SettlementsOf(b, pid)| - 2 * |CitiesOf(b, pid)| )
  }

  /** The player after paying for a road and taking it from hand. */
  function RoadBuilt(s: PlayerState): PlayerState {
    s.(resources := Spend(s.resources, RoadCost), roadsRemaining := s.roadsRemaining - 1)
  }

  /** The player after paying for a settlement, taking it from hand and scoring its point. */
  function SettlementBuilt(s: PlayerState): PlayerState {
    s.(resources := Spend(s.resources, SettlementCost), settlementsRemaining := s.settlementsRemaining - 1,
       victoryPoints := s.victoryPoints + 1)
  }

  /**
   * The player after paying for a city: the settlement it replaces goes back to
   * hand, a city leaves it, and the point total grows from one to two.
   */
  function CityBuilt(s: PlayerState): PlayerState {
    s.(resources := Spend(s.resources, CityCost), settlementsRemaining := s.settlementsRemaining + 1,
       citiesRemaining := s.citiesRemaining - 1, victoryPoints := s.victoryPoints + 1)
  }

  /** A road built on a free slot joins the player's roads and leaves every other player's alone. */
  lemma RoadKeepsTally(b: BoardGraph, pid: PlayerId, s: PlayerState, e: EdgeId)
    requires e in b.edges && b.edges[e].owner.None?
    ensures Tally(WithRoad(b, e, Some(pid)), pid, RoadBuilt(s)) == Tally(b, pid, s)
    ensures forall q :: q != pid ==> RoadsOf(WithRoad(b, e, Some(pid)), q) == RoadsOf(b, q)
  {
    var b' := WithRoad(b, e, Some(pid));
    assert RoadsOf(b', pid) == RoadsOf(b, pid) + {e};
    assert b'.vertices == b.vertices;
  }

  /** A settlement built on an empty corner joins the player's settlements. */
  lemma SettlementKeepsTally(b: BoardGraph, pid: PlayerId, s: PlayerState, v: VertexId)
    requires v in b.vertices && b.vertices[v].owner.None?
    ensures Tally(WithStructure(b, v, Some(pid), false), pid, SettlementBuilt(s)) == Tally(b, pid, s)
    ensures forall q :: q != pid ==> SettlementsOf(WithStructure(b, v, Some(pid), false), q) == SettlementsOf(b, q)
  {
    var b' := WithStructure(b, v, Some(pid), false);
    assert SettlementsOf(b', pid) == SettlementsOf(b, pid) + {v};
    assert CitiesOf(b', pid) == CitiesOf(b, pid);
    forall q | q != pid
      ensures SettlementsOf(b', q) == SettlementsOf(b, q)
    {
      assert SettlementsOf(b', q) == SettlementsOf(b, q);
    }
  }

  /** Upgrading moves the corner from the player's settlements to its cities. */
  lemma CityKeepsTally(b: BoardGraph, pid: PlayerId, s: PlayerState, v: VertexId)
    requires v in b.vertices && b.vertices[v].owner == Some(pid) && !b.vertices[v].isCity
    ensures Tally(WithStructure(b, v, Some(pid), true), pid, CityBuilt(s)) == Tally(b, pid, s)
  {
    var b' := WithStructure(b, v, Some(pid), true);
    assert SettlementsOf(b', pid) == SettlementsOf(b, pid) - {v};
    assert CitiesOf(b', pid) == CitiesOf(b, pid) + {v};
  }

  /** Paying a cost the player covers leaves no count negative. */
  lemma SpendCovered(counts: map<Resource, int>, cost: map<Resource, int>)
    requires cost.Keys <= counts.Keys && Covers(counts, cost)
    requires forall r :: r in counts ==> counts[r] >= 0
    ensures Spend(counts, cost).Keys == counts.Keys
    ensures forall r :: r in counts ==> Spend(counts, cost)[r] >= 0
  {
  }

  /** Once a road is built on a slot, building there again is refused as already taken. */
  lemma RoadTwiceRefused(b: BoardGraph, pid: PlayerId, pid': PlayerId, s: PlayerState, e: EdgeId)
    requires e in b.edges && RoadCost.Keys <= s.resources.Keys
    ensures CanBuildRoad(WithRoad(b, e, Some(pid)), pid', s, e) == (false, "Edge already has a road")
  {
  }

  // ---------------------------------------------------------------------------
  // _score_settlement_location
  // ---------------------------------------------------------------------------

  /** The resource hex h counts for in scoring: none for a missing hex, a hex without resource, or the desert. */
  function ScoringResource(b: BoardGraph, h: HexId): (r: Option<Resource>)
    ensures r.Some? ==> r.value != Desert
  {
    if h in b.hexes && b.hexes[h].resource.Some? && b.hexes[h].resource.value != Desert then b.hexes[h].resource
    else None
  }

  /** The points of the hexes hs before the diversity bonus: 3 for a preferred resource, 1 for any other. */
  function HexPoints(b: BoardGraph, hs: seq<HexId>, preferred: seq<Resource>): nat
    decreases |hs|
  {
    if hs == [] then 0
    else
      HexPoints(b, hs[..|hs| - 1], preferred)
      + match ScoringResource(b, hs[|hs| - 1])
        case None => 0
        case Some(r) => if r in preferred then 3 else 1
  }

  /** The distinct resources among the hexes hs (the keys of resource_counts). */
  function ResourcesAt(b: BoardGraph, hs: seq<HexId>): (rs: set<Resource>)
    ensures forall r :: r in rs <==> exists h :: h in hs && ScoringResource(b, h) == Some(r)
    decreases |hs|
  {
    if hs == [] then {}
    else
      var h := hs[|hs| - 1];
      assert forall h' :: h' in hs <==> h' in hs[..|hs| - 1] || h' == h;
      ResourcesAt(b, hs[..|hs| - 1]) + (if ScoringResource(b, h).Some? then {ScoringResource(b, h).value} else {})
  }

  /** The hexes of hs that yield a resource. */
  function Producing(b: BoardGraph, hs: seq<HexId>): nat
    decreases |hs|
  {
    if hs == [] then 0 else Producing(b, hs[..|hs| - 1]) + (if ScoringResource(b, hs[|hs| - 1]).Some? then 1 else 0)
  }

  /** The hexes of hs that yield a preferred resource. */
  function PreferredHexes(b: BoardGraph, hs: seq<HexId>, preferred: seq<Resource>): nat
    decreases |hs|
  {
    if hs == [] then 0
    else
      var r := ScoringResource(b, hs[|hs| - 1]);
      PreferredHexes(b, hs[..|hs| - 1], preferred) + (if r.Some? && r.value in preferred then 1 else 0)
  }

  /**
   * _score_settlement_location: a point per yielding hex at the corner, three for
   * a preferred resource, plus two per distinct resource. An absent preference
   * list behaves as an empty one.
   */
  function ScoreSettlementLocation(b: BoardGraph, v: VertexId, preferred: seq<Resource>): nat
    requires v in b.vertices
  {
    var hs := b.vertices[v].hexIds;
    HexPoints(b, hs, preferred) + 2 * |ResourcesAt(b, hs)|
  }

  /**
   * Each hex scores 1, and 2 more when its resource is preferred; there are never
   * more distinct resources than yielding hexes, and none exactly when no hex yields.
   */
  lemma {:induction false} HexCounts(b: BoardGraph, hs: seq<HexId>, preferred: seq<Resource>)
    ensures HexPoints(b, hs, preferred) == Producing(b, hs) + 2 * PreferredHexes(b, hs, preferred)
    ensures PreferredHexes(b, hs, preferred) <= Producing(b, hs) <= |hs|
    ensures PreferredHexes(b, hs, []) == 0
    ensures |ResourcesAt(b, hs)| <= Producing(b, hs)
    ensures ResourcesAt(b, hs) == {} <==> Producing(b, hs) == 0
    decreases |hs|
  {
    if hs != [] {
      var init := hs[..|hs| - 1];
      HexCounts(b, init, preferred);
      var h := hs[|hs| - 1];
      if ScoringResource(b, h).Some? {
        assert h in hs;
        var r := ScoringResource(b, h).value;
        assert ResourcesAt(b, hs) == ResourcesAt(b, init) + {r};
        assert |ResourcesAt(b, hs)| <= |ResourcesAt(b, init)| + 1;
      }
    }
  }

  /**
   * The score of a corner never falls below one per yielding hex plus the
   * diversity bonus and never exceeds 5 per hex; a preference adds exactly 2 per
   * preferred hex to the score without one.
   */
  lemma ScoreBounds(b: BoardGraph, v: VertexId, preferred: seq<Resource>)
    requires v in b.vertices
    ensures var hs := b.vertices[v].hexIds;
      && Producing(b, hs) + 2 * |ResourcesAt(b, hs)| <= ScoreSettlementLocation(b, v, preferred)
      && ScoreSettlementLocation(b, v, preferred) <= 5 * |hs|
      && ScoreSettlementLocation(b, v, preferred)
         == ScoreSettlementLocation(b, v, []) + 2 * PreferredHexes(b, hs, preferred)
      && (ScoreSettlementLocation(b, v, preferred) == 0 <==> Producing(b, hs) == 0)
  {
    HexCounts(b, b.vertices[v].hexIds, preferred);
    HexCounts(b, b.vertices[v].hexIds, []);
  }

  // ---------------------------------------------------------------------------
  // Sorting the scored corners: list.sort(reverse=True, key=score), which is stable
  // ---------------------------------------------------------------------------

  predicate Descending(s: seq<(int, VertexId)>) {
    forall i, j :: 0 <= i < j < |s| ==> s[i].0 >= s[j].0
  }

  /** Puts x after every entry scoring at least as much, so equal scores keep their order. */
  function InsertByScore(x: (int, VertexId), s: seq<(int, VertexId)>): seq<(int, VertexId)> {
    if s == [] then [x]
    else if s[0].0 >= x.0 then [s[0]] + InsertByScore(x, s[1..])
    else [x] + s
  }

  /** The scored corners by descending score; entries of equal score stay in the order given. */
  function SortByScore(s: seq<(int, VertexId)>): seq<(int, VertexId)>
    decreases |s|
  {
    if s == [] then [] else InsertByScore(s[|s| - 1], SortByScore(s[..|s| - 1]))
  }

  lemma DescendingCons(a: (int, VertexId), s: seq<(int, VertexId)>)
    requires Descending(s) && forall y :: y in s ==> y.0 <= a.0
    ensures Descending([a] + s)
  {
    forall i, j | 0 <= i < j < |[a] + s| ensures ([a] + s)[i].0 >= ([a] + s)[j].0 {
      if i > 0 {
        assert ([a] + s)[i] == s[i - 1] && ([a] + s)[j] == s[j - 1];
      } else {
        assert ([a] + s)[j] in s;
      }
    }
  }

  /** Inserting keeps every entry once more and keeps a descending list descending. */
  lemma {:induction false} InsertByScoreSorts(x: (int, VertexId), s: seq<(int, VertexId)>)
    ensures multiset(InsertByScore(x, s)) == multiset(s) + multiset{x}
    ensures Descending(s) ==> Descending(InsertByScore(x, s))
    decreases |s|
  {
    if s != [] {
      assert s == [s[0]] + s[1..];
      InsertByScoreSorts(x, s[1..]);
      var rest := InsertByScore(x, s[1..]);
      if s[0].0 >= x.0 && Descending(s) {
        forall y | y in rest ensures y.0 <= s[0].0 {
          assert y in multiset(rest);
          if y != x {
            assert y in s[1..];
          }
        }
        DescendingCons(s[0], rest);
      } else if Descending(s) {
        forall y | y in s ensures y.0 <= x.0 {}
        DescendingCons(x, s);
      }
    }
  }

  /** The sort is a permutation of its input in descending order of score. */
  lemma {:induction false} SortByScoreSorts(s: seq<(int, VertexId)>)
    ensures multiset(SortByScore(s)) == multiset(s)
    ensures Descending(SortByScore(s))
    decreases |s|
  {
    if s != [] {
      assert s == s[..|s| - 1] + [s[|s| - 1]];
      SortByScoreSorts(s[..|s| - 1]);
      InsertByScoreSorts(s[|s| - 1], SortByScore(s[..|s| - 1]));
    }
  }

  // ---------------------------------------------------------------------------
  // _find_buildable_vertices
  // ---------------------------------------------------------------------------

  /** Corner v is in the player's network, empty, and clear of neighbouring buildings. */
  ghost predicate Buildable(b: BoardGraph, pid: PlayerId, v: VertexId)
    requires WellFormed(b)
  {
    InNetwork(b, pid, v) && v in b.vertices && b.vertices[v].owner.None? && DistanceRule(b, v)
  }

  /**
   * A buildable corner passes every clause of can_build_settlement that depends on
   * the corner, so only the player's cards and supply decide: an empty corner of
   * the network is reached by one of the player's roads.
   */
  lemma BuildableAccepted(b: BoardGraph, pid: PlayerId, s: PlayerState, v: VertexId)
    requires WellFormed(b) && SettlementCost.Keys <= s.resources.Keys && Buildable(b, pid, v)
    ensures CanBuildSettlement(b, pid, s, v) ==
      if !Covers(s.resources, SettlementCost) then (false, "Insufficient resources (need 1 Lumber + 1 Brick + 1 Grain + 1 Wool)")
      else if s.settlementsRemaining <= 0 then (false, "No settlements remaining")
      else (true, "Valid settlement placement")
  {
    var st, es :| OwnedBy(b, pid, st) && WalkTo(b, pid, true, st, es) == Some(v);
    assert es != [];
    var u := WalkTo(b, pid, true, st, es[..|es| - 1]).value;
    var e := es[|es| - 1];
    assert u in b.vertices && e in b.vertices[u].edgeIds && Usable(b, pid, true, e);
    assert e in b.vertices[v].edgeIds;
  }

  /**
   * _find_buildable_vertices: the corners of the player's network that are empty
   * and clear of neighbouring buildings, each once.
   */
  method FindBuildableVertices(b: BoardGraph, pid: PlayerId) returns (r: seq<VertexId>)
    requires WellFormed(b)
    ensures Distinct(r)
    ensures forall v :: v in r <==> Buildable(b, pid, v)
  {
    var connected := GetPlayerConnectedVertices(b, pid);
    r := [];
    var i := 0;
    while i < |connected|
      invariant 0 <= i <= |connected|
      invariant Distinct(r)
      invariant forall v :: v in r <==> v in connected[..i] && b.vertices[v].owner.None? && DistanceRule(b, v)
    {
      var v := connected[i];
      TakeSnoc(connected, i);
      if b.vertices[v].owner.None? && DistanceRule(b, v) {
        r := r + [v];
      }
      i := i + 1;
    }
    assert connected[..i] == connected;
  }

  // ---------------------------------------------------------------------------
  // The resource location map: resource -> hex -> corners
  // ---------------------------------------------------------------------------

  /** The corners among vs, in order, that touch hex h. */
  function CornersAt(b: BoardGraph, vs: seq<VertexId>, h: HexId): (r: seq<VertexId>)
    requires forall v :: v in vs ==> v in b.vertices
    ensures forall v :: v in r <==> v in vs && h in b.vertices[v].hexIds
    decreases |vs|
  {
    if vs == [] then []
    else
      var v := vs[|vs| - 1];
      assert forall w :: w in vs <==> w in vs[..|vs| - 1] || w == v;
      CornersAt(b, vs[..|vs| - 1], h) + (if h in b.vertices[v].hexIds then [v] else [])
  }

  /**
   * m is what _build_resource_map fills in for board b: an entry for each resource
   * some hex yields, under it the hexes yielding it that touch some corner, and
   * under each of those its corners in board order.
   */
  ghost predicate MapMatches(b: BoardGraph, m: map<Resource, map<HexId, seq<VertexId>>>)
    requires WellFormed(b)
  {
    && (forall r :: r in m <==> exists h :: h in b.hexes && ScoringResource(b, h) == Some(r))
    && (forall r, h :: r in m ==>
          (h in m[r] <==> h in b.hexes && ScoringResource(b, h) == Some(r) && CornersAt(b, b.vertexOrder, h) != []))
    && (forall r, h :: r in m && h in m[r] ==> m[r][h] == CornersAt(b, b.vertexOrder, h))
  }

  /**
   * The map answers for exactly the corners touching a hex of the resource: a
   * corner is listed under some hex of r just when r is not the desert and yields at it.
   */
  lemma ResourceMapLookup(b: BoardGraph, m: map<Resource, map<HexId, seq<VertexId>>>, r: Resource, v: VertexId)
    requires WellFormed(b) && MapMatches(b, m)
    ensures (r in m && exists h :: h in m[r] && v in m[r][h]) <==> r != Desert && YieldsAt(b, v, r)
  {
    if r != Desert && YieldsAt(b, v, r) {
      var h :| h in b.vertices[v].hexIds && h in b.hexes && b.hexes[h].resource == Some(r);
      assert ScoringResource(b, h) == Some(r);
      assert v in CornersAt(b, b.vertexOrder, h);
      assert h in m[r];
    }
    if r in m && exists h :: h in m[r] && v in m[r][h] {
      var h :| h in m[r] && v in m[r][h];
      assert ScoringResource(b, h) == Some(r);
    }
  }

  /** The corners at a hex depend only on the layout, not on who owns what. */
  lemma {:induction false} CornersAtSameLayout(b: BoardGraph, b': BoardGraph, vs: seq<VertexId>, h: HexId)
    requires SameLayout(b, b') && forall v :: v in vs ==> v in b.vertices
    ensures CornersAt(b, vs, h) == CornersAt(b', vs, h)
    decreases |vs|
  {
    if vs != [] {
      assert vs[|vs| - 1] in vs;
      CornersAtSameLayout(b, b', vs[..|vs| - 1], h);
    }
  }

  /**
   * A change of ownership that leaves every city owned keeps the board well formed
   * and the resource map valid: building changes no entry of the map.
   */
  lemma LayoutKept(b: BoardGraph, b': BoardGraph, m: map<Resource, map<HexId, seq<VertexId>>>)
    requires WellFormed(b) && SameLayout(b, b') && CitiesOwned(b') && MapMatches(b, m)
    ensures WellFormed(b') && MapMatches(b', m)
  {
    SameLayoutWellFormed(b, b');
    assert forall h :: ScoringResource(b, h) == ScoringResource(b', h);
    forall h ensures CornersAt(b, b.vertexOrder, h) == CornersAt(b', b'.vertexOrder, h) {
      CornersAtSameLayout(b, b', b.vertexOrder, h);
    }
  }

  /**
   * What _build_resource_map is after, hex by hex: for each hex with a resource
   * other than the desert, that resource and the hex's corners in board order.
   */
  ghost function Wanted(b: BoardGraph): (w: map<HexId, (Resource, seq<VertexId>)>)
    requires WellFormed(b)
    ensures forall h :: h in w <==> h in b.hexes && ScoringResource(b, h).Some?
    ensures forall h :: h in w ==> w[h] == (ScoringResource(b, h).value, CornersAt(b, b.vertexOrder, h))
  {
    map h | h in b.hexes && ScoringResource(b, h).Some? :: (ScoringResource(b, h).value, CornersAt(b, b.vertexOrder, h))
  }

  /** The map after the hexes in seen have been visited, w being what each hex contributes. */
  ghost predicate PartialMap(w: map<HexId, (Resource, seq<VertexId>)>, m: map<Resource, map<HexId, seq<VertexId>>>,
                             seen: seq<HexId>)
  {
    && (forall r :: r in m <==> exists h :: h in seen && h in w && w[h].0 == r)
    && (forall r, h :: r in m && h in m[r] ==> h in seen && h in w && w[h].0 == r && w[h].1 != [] && m[r][h] == w[h].1)
    && (forall h :: h in seen && h in w && w[h].1 != [] ==> w[h].0 in m && h in m[w[h].0])
  }

  /** Visiting a hex that yields nothing leaves the map as it is. */
  lemma SkipHex(w: map<HexId, (Resource, seq<VertexId>)>, m: map<Resource, map<HexId, seq<VertexId>>>,
                seen: seq<HexId>, h: HexId)
    requires PartialMap(w, m, seen) && h !in w
    ensures PartialMap(w, m, seen + [h])
  {
    forall r | exists h' :: h' in seen + [h] && h' in w && w[h'].0 == r
      ensures r in m
    {
      var h' :| h' in seen + [h] && h' in w && w[h'].0 == r;
      assert h' in seen;
    }
  }

  /** Visiting a hex of resource r puts its corners under r, and nothing else changes. */
  lemma AddHex(w: map<HexId, (Resource, seq<VertexId>)>, m: map<Resource, map<HexId, seq<VertexId>>>,
               seen: seq<HexId>, h: HexId, inner: map<HexId, seq<VertexId>>)
    requires PartialMap(w, m, seen) && h !in seen && h in w
    requires var inner0 := if w[h].0 in m then m[w[h].0] else map[];
      && (forall h' :: h' in inner <==> h' in inner0 || (h' == h && w[h].1 != []))
      && (forall h' :: h' in inner0 ==> inner[h'] == inner0[h'])
      && (h in inner ==> inner[h] == w[h].1)
    ensures PartialMap(w, m[w[h].0 := inner], seen + [h])
  {
    var r := w[h].0;
    var inner0 := if r in m then m[r] else map[];
    var m' := m[r := inner];
    forall r' ensures r' in m' <==> exists h' :: h' in seen + [h] && h' in w && w[h'].0 == r' {
      if r' == r {
        assert h in seen + [h];
      } else if exists h' :: h' in seen + [h] && h' in w && w[h'].0 == r' {
        var h' :| h' in seen + [h] && h' in w && w[h'].0 == r';
        assert h' in seen;
      } else {
        assert forall h' :: h' in seen ==> h' in seen + [h];
      }
    }
    forall r', h' | r' in m' && h' in m'[r']
      ensures h' in seen + [h] && h' in w && w[h'].0 == r' && w[h'].1 != [] && m'[r'][h'] == w[h'].1
    {
      if r' != r {
        assert h' in m[r'];
      } else if h' != h {
        assert h' in inner0;
        assert r in m && h' in m[r];
      } else {
        assert h !in inner0;
      }
    }
    forall h' | h' in seen + [h] && h' in w && w[h'].1 != []
      ensures w[h'].0 in m' && h' in m'[w[h'].0]
    {
      if h' != h {
        assert h' in seen;
      }
    }
  }

  /** One round of the outer loop of _build_resource_map: the hex at position hi is added. */
  method VisitHex(b: BoardGraph, m: map<Resource, map<HexId, seq<VertexId>>>, hi: nat)
    returns (m': map<Resource, map<HexId, seq<VertexId>>>)
    requires WellFormed(b) && hi < |b.hexOrder| && PartialMap(Wanted(b), m, b.hexOrder[..hi])
    ensures PartialMap(Wanted(b), m', b.hexOrder[..hi + 1])
  {
    ghost var w := Wanted(b);
    var h := b.hexOrder[hi];
    TakeSnoc(b.hexOrder, hi);
    assert h !in b.hexOrder[..hi];
    var r := ScoringResource(b, h);
    if r.Some? {
      var inner := if r.value in m then m[r.value] else map[];
      var cs := CollectCorners(b, h);
      if cs != [] {
        inner := inner[h := cs];
      }
      AddHex(w, m, b.hexOrder[..hi], h, inner);
      m' := m[r.value := inner];
    } else {
      SkipHex(w, m, b.hexOrder[..hi], h);
      m' := m;
    }
  }

  /** Once every hex has been visited the map is the whole resource location map. */
  lemma MapComplete(b: BoardGraph, m: map<Resource, map<HexId, seq<VertexId>>>)
    requires WellFormed(b) && PartialMap(Wanted(b), m, b.hexOrder)
    ensures MapMatches(b, m)
  {
    var w := Wanted(b);
    forall r ensures r in m <==> exists h :: h in b.hexes && ScoringResource(b, h) == Some(r) {
      if exists h :: h in b.hexes && ScoringResource(b, h) == Some(r) {
        var h :| h in b.hexes && ScoringResource(b, h) == Some(r);
        assert h in b.hexOrder && h in w;
      }
    }
    forall r, h | r in m
      ensures h in m[r] <==> h in b.hexes && ScoringResource(b, h) == Some(r) && CornersAt(b, b.vertexOrder, h) != []
    {
      ListedHex(b, w, m, r, h);
    }
  }

  /** One entry of the completed map: hex h is listed under r just when it yields r and has corners. */
  lemma ListedHex(b: BoardGraph, w: map<HexId, (Resource, seq<VertexId>)>, m: map<Resource, map<HexId, seq<VertexId>>>,
                  r: Resource, h: HexId)
    requires WellFormed(b) && w == Wanted(b) && PartialMap(w, m, b.hexOrder) && r in m
    ensures h in m[r] <==> h in b.hexes && ScoringResource(b, h) == Some(r) && CornersAt(b, b.vertexOrder, h) != []
  {
    if h in m[r] {
      assert h in w && w[h].0 == r && w[h].1 != [];
    }
    if h in b.hexes && ScoringResource(b, h) == Some(r) && CornersAt(b, b.vertexOrder, h) != [] {
      assert h in b.hexOrder && h in w;
      assert w[h].0 == r && w[h].1 != [];
    }
  }

  /** Taking one more corner of the board order adds it when it touches h. */
  lemma CornersAtStep(b: BoardGraph, vs: seq<VertexId>, i: nat, h: HexId)
    requires i < |vs| && forall v :: v in vs ==> v in b.vertices
    ensures CornersAt(b, vs[..i + 1], h) == CornersAt(b, vs[..i], h) + (if h in b.vertices[vs[i]].hexIds then [vs[i]] else [])
  {
    assert vs[..i + 1][..i] == vs[..i];
  }

  /**
   * The inner loop of _build_resource_map for hex h: each corner touching h, in
   * board order, is appended to the hex's list unless already there. The entry for
   * h is created with the first such corner, so it exists just when the list is
   * not empty (VisitHex adds it).
   */
  method CollectCorners(b: BoardGraph, h: HexId) returns (cs: seq<VertexId>)
    requires WellFormed(b)
    ensures cs == CornersAt(b, b.vertexOrder, h)
  {
    var vo := b.vertexOrder;
    cs := [];
    var vi := 0;
    while vi < |vo|
      invariant 0 <= vi <= |vo|
      invariant cs == CornersAt(b, vo[..vi], h)
    {
      var v := vo[vi];
      CornersAtStep(b, vo, vi, h);
      assert v !in vo[..vi];
      if h in b.vertices[v].hexIds && v !in cs {
        cs := cs + [v];
      }
      vi := vi + 1;
    }
    assert vo[..vi] == vo;
  }

  // ---------------------------------------------------------------------------
  // find_best_settlement_for_resource, cpu_build_road
  // ---------------------------------------------------------------------------

  /** The entries of xs, in order, that also occur in ys: the list comprehension of find_best_settlement_for_resource. */
  function KeepIn(xs: seq<VertexId>, ys: seq<VertexId>): (r: seq<VertexId>)
    ensures forall v :: v in r <==> v in xs && v in ys
    ensures Distinct(xs) ==> Distinct(r)
  {
    if xs == [] then []
    else
      assert forall v :: v in xs <==> v == xs[0] || v in xs[1..];
      (if xs[0] in ys then [xs[0]] else []) + KeepIn(xs[1..], ys)
  }

  /**
   * The lists of a hex -> corners map joined one after another, hexes taken in
   * the given order (the map's keys were inserted in board order).
   */
  method Concat(inner: map<HexId, seq<VertexId>>, order: seq<HexId>) returns (acc: seq<VertexId>)
    requires forall h :: h in inner ==> h in order
    ensures forall v :: v in acc <==> exists h :: h in inner && v in inner[h]
  {
    acc := [];
    var i := 0;
    while i < |order|
      invariant 0 <= i <= |order|
      invariant forall v :: v in acc <==> exists h :: h in inner && h in order[..i] && v in inner[h]
    {
      var h := order[i];
      TakeSnoc(order, i);
      if h in inner {
        acc := acc + inner[h];
      }
      i := i + 1;
    }
    assert order[..i] == order;
  }

  /** A corner find_best_settlement_for_resource may pick: buildable and touching a hex of r. */
  ghost predicate Candidate(b: BoardGraph, pid: PlayerId, r: Resource, v: VertexId)
    requires WellFormed(b)
  {
    r != Desert && YieldsAt(b, v, r) && Buildable(b, pid, v)
  }

  /** The scoring loop of cpu_build_settlement: each corner paired with its score, in order. */
  method ScoreAll(b: BoardGraph, vs: seq<VertexId>, preferred: seq<Resource>) returns (scored: seq<(int, VertexId)>)
    requires forall v :: v in vs ==> v in b.vertices
    ensures |scored| == |vs|
    ensures forall j :: 0 <= j < |vs| ==> scored[j] == (ScoreSettlementLocation(b, vs[j], preferred), vs[j])
  {
    scored := [];
    var i := 0;
    while i < |vs|
      invariant 0 <= i <= |vs| && |scored| == i
      invariant forall j :: 0 <= j < i ==> scored[j] == (ScoreSettlementLocation(b, vs[j], preferred), vs[j])
    {
      scored := scored + [(ScoreSettlementLocation(b, vs[i], preferred), vs[i])];
      i := i + 1;
    }
  }

  /** After sorting, the first entry is a corner of the list with the highest score. */
  lemma BestFirst(b: BoardGraph, vs: seq<VertexId>, preferred: seq<Resource>, scored: seq<(int, VertexId)>)
    requires forall v :: v in vs ==> v in b.vertices
    requires |scored| == |vs| > 0
    requires forall j :: 0 <= j < |vs| ==> scored[j] == (ScoreSettlementLocation(b, vs[j], preferred), vs[j])
    ensures |SortByScore(scored)| == |vs|
    ensures forall k :: 0 <= k < |vs| ==>
      SortByScore(scored)[k].1 in vs && SortByScore(scored)[k].0 == ScoreSettlementLocation(b, SortByScore(scored)[k].1, preferred)
    ensures var top := SortByScore(scored)[0];
      && top.1 in vs && top.0 == ScoreSettlementLocation(b, top.1, preferred)
      && forall v :: v in vs ==> ScoreSettlementLocation(b, v, preferred) <= top.0
  {
    var sorted := SortByScore(scored);
    SortByScoreSorts(scored);
    assert |sorted| == |multiset(sorted)| == |scored|;
    forall k | 0 <= k < |vs| ensures sorted[k].1 in vs && sorted[k].0 == ScoreSettlementLocation(b, sorted[k].1, preferred) {
      assert sorted[k] in multiset(scored);
    }
    forall v | v in vs ensures ScoreSettlementLocation(b, v, preferred) <= sorted[0].0 {
      var j :| 0 <= j < |vs| && vs[j] == v;
      assert scored[j] in multiset(sorted);
      var k :| 0 <= k < |sorted| && sorted[k] == scored[j];
      if k > 0 {
        assert sorted[0].0 >= sorted[k].0;
      }
    }
  }

  /** Entry i of the scored corners has the highest score, and every earlier entry scores strictly less. */
  ghost predicate FirstTop(scored: seq<(int, VertexId)>, i: int) {
    && 0 <= i < |scored|
    && (forall j :: 0 <= j < |scored| ==> scored[j].0 <= scored[i].0)
    && (forall j :: 0 <= j < i ==> scored[j].0 < scored[i].0)
  }

  /**
   * The scan of find_best_settlement_for_resource over the scored candidates:
   * starting from a best score of -1, an entry replaces the best one when it
   * scores strictly more.
   */
  method PickBest(scored: seq<(int, VertexId)>) returns (best: Option<VertexId>)
    requires forall j :: 0 <= j < |scored| ==> scored[j].0 >= 0
    ensures best.None? <==> scored == []
    ensures best.Some? ==> exists i :: FirstTop(scored, i) && scored[i].1 == best.value
  {
    best := None;
    var bestScore := -1;
    ghost var at := 0;
    var i := 0;
    while i < |scored|
      invariant 0 <= i <= |scored|
      invariant best.None? <==> i == 0
      invariant best.None? ==> bestScore == -1
      invariant best.Some? ==> FirstTop(scored[..i], at) && scored[at].1 == best.value && scored[at].0 == bestScore
    {
      var (score, v) := scored[i];
      TakeSnoc(scored, i);
      if score > bestScore {
        bestScore := score;
        best := Some(v);
        at := i;
      }
      assert FirstTop(scored[..i + 1], at);
      i := i + 1;
    }
    assert scored[..i] == scored;
  }

  /** The entry the scan picks is a candidate, and no candidate scores more. */
  lemma TopIsBestCandidate(b: BoardGraph, pid: PlayerId, r: Resource, cands: seq<VertexId>,
                           scored: seq<(int, VertexId)>, i: int)
    requires WellFormed(b) && forall v :: v in cands <==> Candidate(b, pid, r, v)
    requires forall v :: v in cands ==> v in b.vertices
    requires |scored| == |cands|
    requires forall j :: 0 <= j < |cands| ==> scored[j] == (ScoreSettlementLocation(b, cands[j], [r]), cands[j])
    requires FirstTop(scored, i)
    ensures Candidate(b, pid, r, scored[i].1)
    ensures forall v :: Candidate(b, pid, r, v) ==>
      ScoreSettlementLocation(b, v, [r]) <= ScoreSettlementLocation(b, scored[i].1, [r])
  {
    forall v | Candidate(b, pid, r, v)
      ensures ScoreSettlementLocation(b, v, [r]) <= ScoreSettlementLocation(b, scored[i].1, [r])
    {
      var j :| 0 <= j < |cands| && cands[j] == v;
      assert scored[j].0 <= scored[i].0;
    }
  }

  /** The player can pay for a settlement and has one in hand: the checks of can_build_settlement that do not look at the board. */
  predicate CanSettle(s: PlayerState) {
    SettlementCost.Keys <= s.resources.Keys && Covers(s.resources, SettlementCost) && s.settlementsRemaining > 0
  }

  /**
   * What find_best_road_placement promises when asked for a resource or for no
   * target: the first road of a cheapest walk from the network to the resource,
   * or an open road at the network.
   */
  ghost predicate PlannedRoad(b: BoardGraph, pid: PlayerId, target: Option<Resource>, chosen: Option<EdgeId>,
                              s: VertexId, es: seq<EdgeId>)
    requires WellFormed(b)
  {
    && (chosen.Some? ==> chosen.value in b.edges && b.edges[chosen.value].owner.None?)
    && (target.Some? ==>
          var targets := YieldingSet(b, target.value);
          if chosen.Some? then Cheapest(b, pid, NetworkSet(b, pid), targets, s, es) && Built(b, es) != [] && Built(b, es)[0] == chosen.value
          else Unreachable(b, pid, NetworkSet(b, pid), targets)
               || (Cheapest(b, pid, NetworkSet(b, pid), targets, s, es) && Built(b, es) == []))
    && (target.None? ==>
          (chosen.Some? ==> exists v :: InNetwork(b, pid, v) && OpenRoadAt(b, v, chosen.value))
          && (chosen.None? ==> forall v, e :: InNetwork(b, pid, v) ==> !OpenRoadAt(b, v, e)))
  }

  // ---------------------------------------------------------------------------
  // The service
  // ---------------------------------------------------------------------------

  /** Pays a cost with one remove_resource per entry, in the order the cost lists them. */
  method Pay(p: Player, cost: map<Resource, int>, order: seq<Resource>)
    requires Distinct(order) && (forall r :: r in order <==> r in cost)
    requires cost.Keys <= p.resources.Keys && Covers(p.resources, cost)
    modifies p`resources
    ensures p.resources == Spend(old(p.resources), cost)
  {
    var k := 0;
    while k < |order|
      invariant 0 <= k <= |order|
      invariant p.resources.Keys == old(p.resources).Keys
      invariant forall r :: r in p.resources ==>
        p.resources[r] == old(p.resources)[r] - (if r in order[..k] then cost[r] else 0)
    {
      var r := order[k];
      TakeSnoc(order, k);
      var paid := p.RemoveResource(r, cost[r]);
      k := k + 1;
    }
    assert order[..k] == order;
  }

  class BuildingService {
    const game: GameState
    /** resource -> hex -> corners touching the hex, filled once from the board. */
    var resourceLocationMap: map<Resource, map<HexId, seq<VertexId>>>

    /** A consistent game whose cached map agrees with its board. */
    ghost predicate Valid()
      reads this`resourceLocationMap, game`board
    {
      game.Valid() && MapMatches(game.board, resourceLocationMap)
    }

    /** The player a player id names: game.players[player_id], a negative id counting from the end. */
    function PlayerAt(pid: PlayerId): Player
      requires -|game.players| <= pid < |game.players|
    {
      game.players[PyIndex(|game.players|, pid)]
    }

    constructor (game: GameState)
      requires game.Valid()
      ensures this.game == game && Valid()
    {
      this.game := game;
      resourceLocationMap := map[];
      new;
      BuildResourceMap();
    }

    /** _build_resource_map: fills the map from the board, hex by hex and corner by corner. */
    method BuildResourceMap()
      requires WellFormed(game.board)
      modifies this`resourceLocationMap
      ensures MapMatches(game.board, resourceLocationMap)
    {
      var b := game.board;
      var m: map<Resource, map<HexId, seq<VertexId>>> := map[];
      var hi := 0;
      while hi < |b.hexOrder|
        invariant 0 <= hi <= |b.hexOrder|
        invariant PartialMap(Wanted(b), m, b.hexOrder[..hi])
      {
        m := VisitHex(b, m, hi);
        hi := hi + 1;
      }
      assert b.hexOrder[..hi] == b.hexOrder;
      MapComplete(b, m);
      resourceLocationMap := m;
    }

    /**
     * get_vertices_with_resource: the corners touching a hex of the resource, each
     * once (list(set(...)), in no particular order); none for the desert.
     */
    method GetVerticesWithResource(r: Resource) returns (vs: seq<VertexId>)
      requires Valid()
      ensures Distinct(vs)
      ensures forall v :: v in vs <==> r != Desert && YieldsAt(game.board, v, r)
    {
      var acc: seq<VertexId> := [];
      if r in resourceLocationMap {
        assert forall h :: h in resourceLocationMap[r] ==> h in game.board.hexes;
        acc := Concat(resourceLocationMap[r], game.board.hexOrder);
      }
      forall v ensures v in acc <==> r != Desert && YieldsAt(game.board, v, r) {
        ResourceMapLookup(game.board, resourceLocationMap, r, v);
      }
      vs := ListOf(SetOf(acc));
    }

    /**
     * build_road: when the rules allow it the road is the player's, a lumber and a
     * brick are paid and a road leaves the hand; otherwise the rules' reason is
     * returned and nothing changes.
     */
    method BuildRoad(pid: PlayerId, e: EdgeId) returns (ok: bool, msg: string)
      requires Valid() && -|game.players| <= pid < |game.players| && PlayerAt(pid).Valid()
      modifies game`board, PlayerAt(pid)`resources, PlayerAt(pid)`roadsRemaining
      ensures Valid() && PlayerAt(pid).Valid()
      ensures ok == CanBuildRoad(old(game.board), pid, old(PlayerAt(pid).State()), e).0
      ensures !ok ==> msg == CanBuildRoad(old(game.board), pid, old(PlayerAt(pid).State()), e).1
                      && unchanged(game, PlayerAt(pid))
      ensures ok ==> && game.board == WithRoad(old(game.board), e, Some(pid))
                     && PlayerAt(pid).State() == RoadBuilt(old(PlayerAt(pid).State()))
                     && msg == "Road built successfully on edge " + ShowInt(e)
    {
      var player := PlayerAt(pid);
      var check := CanBuildRoad(game.board, pid, player.State(), e);
      if !check.0 {
        return false, check.1;
      }
      TakeRoad(player);
      SetBoard(WithRoad(game.board, e, Some(pid)));
      return true, "Road built successfully on edge " + ShowInt(e);
    }

    /**
     * build_settlement: when the rules allow it the corner holds a settlement of
     * the player, one of each of lumber, brick, grain and wool is paid, and the
     * settlement leaves the hand for a point; otherwise nothing changes.
     */
    method BuildSettlement(pid: PlayerId, v: VertexId) returns (ok: bool, msg: string)
      requires Valid() && -|game.players| <= pid < |game.players| && PlayerAt(pid).Valid()
      modifies game`board, PlayerAt(pid)`resources, PlayerAt(pid)`settlementsRemaining, PlayerAt(pid)`victoryPoints
      ensures Valid() && PlayerAt(pid).Valid()
      ensures ok == CanBuildSettlement(old(game.board), pid, old(PlayerAt(pid).State()), v).0
      ensures !ok ==> msg == CanBuildSettlement(old(game.board), pid, old(PlayerAt(pid).State()), v).1
                      && unchanged(game, PlayerAt(pid))
      ensures ok ==> && game.board == WithStructure(old(game.board), v, Some(pid), false)
                     && PlayerAt(pid).State() == SettlementBuilt(old(PlayerAt(pid).State()))
                     && msg == "Settlement built successfully at vertex " + v
    {
      var player := PlayerAt(pid);
      var check := CanBuildSettlement(game.board, pid, player.State(), v);
      if !check.0 {
        return false, check.1;
      }
      var b' := WithStructure(game.board, v, Some(pid), false);
      assert SameLayout(game.board, b') && CitiesOwned(b');
      TakeSettlement(player);
      SetBoard(b');
      return true, "Settlement built successfully at vertex " + v;
    }

    /**
     * upgrade_to_city: when the rules allow it the player's settlement becomes a
     * city, 2 grain and 3 ore are paid, the settlement returns to hand, a city
     * leaves it, and the player gains a point; otherwise nothing changes.
     */
    method UpgradeToCity(pid: PlayerId, v: VertexId) returns (ok: bool, msg: string)
      requires Valid() && -|game.players| <= pid < |game.players| && PlayerAt(pid).Valid()
      modifies game`board, PlayerAt(pid)`resources, PlayerAt(pid)`settlementsRemaining,
        PlayerAt(pid)`citiesRemaining, PlayerAt(pid)`victoryPoints
      ensures Valid() && PlayerAt(pid).Valid()
      ensures ok == CanUpgradeToCity(old(game.board), pid, old(PlayerAt(pid).State()), v).0
      ensures !ok ==> msg == CanUpgradeToCity(old(game.board), pid, old(PlayerAt(pid).State()), v).1
                      && unchanged(game, PlayerAt(pid))
      ensures ok ==> && game.board == WithStructure(old(game.board), v, Some(pid), true)
                     && PlayerAt(pid).State() == CityBuilt(old(PlayerAt(pid).State()))
                     && msg == "Settlement upgraded to city at vertex " + v
    {
      var player := PlayerAt(pid);
      var check := CanUpgradeToCity(game.board, pid, player.State(), v);
      if !check.0 {
        return false, check.1;
      }
      TakeCity(player);
      SetBoard(WithStructure(game.board, v, game.board.vertices[v].owner, true));
      return true, "Settlement upgraded to city at vertex " + v;
    }

    /**
     * find_best_settlement_for_resource: among the buildable corners touching a
     * hex of the resource, one of the highest score with the resource preferred;
     * None when there is no such corner.
     */
    method FindBestSettlementForResource(pid: PlayerId, r: Resource) returns (best: Option<VertexId>)
      requires Valid()
      ensures best.None? <==> forall v :: !Candidate(game.board, pid, r, v)
      ensures best.Some? ==> Candidate(game.board, pid, r, best.value)
      ensures best.Some? ==> forall v :: Candidate(game.board, pid, r, v) ==>
        ScoreSettlementLocation(game.board, v, [r]) <= ScoreSettlementLocation(game.board, best.value, [r])
    {
      var targets := GetVerticesWithResource(r);
      var b := game.board;
      var buildable := FindBuildableVertices(b, pid);
      var cands := KeepIn(targets, buildable);
      assert forall v :: v in cands <==> Candidate(b, pid, r, v);
      var scored := ScoreAll(b, cands, [r]);
      best := PickBest(scored);
      if best.Some? {
        ghost var i :| FirstTop(scored, i) && scored[i].1 == best.value;
        TopIsBestCandidate(b, pid, r, cands, scored, i);
      }
    }

    /**
     * cpu_build_road: the road find_best_road_placement plans toward the resource
     * (or next to the network, without one) is built with build_road; without a
     * plan nothing changes.
     */
    method CpuBuildRoad(pid: PlayerId, target: Option<Resource>)
      returns (ok: bool, msg: string, ghost chosen: Option<EdgeId>, ghost s: VertexId, ghost es: seq<EdgeId>)
      requires Valid() && -|game.players| <= pid < |game.players| && PlayerAt(pid).Valid()
      modifies game`board, PlayerAt(pid)`resources, PlayerAt(pid)`roadsRemaining
      ensures Valid() && PlayerAt(pid).Valid()
      ensures PlannedRoad(old(game.board), pid, target, chosen, s, es)
      ensures chosen.None? ==> !ok && msg == "No valid road placement found" && unchanged(game, PlayerAt(pid))
      ensures chosen.Some? ==> ok == CanBuildRoad(old(game.board), pid, old(PlayerAt(pid).State()), chosen.value).0
      ensures chosen.Some? && !ok ==>
        msg == CanBuildRoad(old(game.board), pid, old(PlayerAt(pid).State()), chosen.value).1 && unchanged(game, PlayerAt(pid))
      ensures chosen.Some? && ok ==>
        && game.board == WithRoad(old(game.board), chosen.value, Some(pid))
        && PlayerAt(pid).State() == RoadBuilt(old(PlayerAt(pid).State()))
        && msg == "Road built successfully on edge " + ShowInt(chosen.value)
    {
      var best;
      best, s, es := FindBestRoadPlacement(game.board, pid, target, None);
      chosen := best;
      if best.None? {
        return false, "No valid road placement found", chosen, s, es;
      }
      ok, msg := BuildRoad(pid, best.value);
    }

    /**
     * cpu_build_settlement: the buildable corners are scored, sorted best first and
     * tried in turn. Every buildable corner passes the board checks, so the first
     * try succeeds exactly when the player can pay and has a settlement in hand,
     * and then the corner built on has the highest score.
     */
    method CpuBuildSettlement(pid: PlayerId, preferred: seq<Resource>) returns (ok: bool, msg: string)
      requires Valid() && -|game.players| <= pid < |game.players| && PlayerAt(pid).Valid()
      modifies game`board, PlayerAt(pid)`resources, PlayerAt(pid)`settlementsRemaining, PlayerAt(pid)`victoryPoints
      ensures Valid() && PlayerAt(pid).Valid()
      ensures ok <==> (exists v :: Buildable(old(game.board), pid, v)) && CanSettle(old(PlayerAt(pid).State()))
      ensures !ok ==> unchanged(game, PlayerAt(pid))
      ensures !ok ==> msg == if exists v :: Buildable(old(game.board), pid, v) then "Could not build settlement at any location"
                             else "No valid settlement locations found"
      ensures ok ==> exists v ::
        && Buildable(old(game.board), pid, v)
        && (forall u :: Buildable(old(game.board), pid, u) ==>
              ScoreSettlementLocation(old(game.board), u, preferred) <= ScoreSettlementLocation(old(game.board), v, preferred))
        && game.board == WithStructure(old(game.board), v, Some(pid), false)
        && PlayerAt(pid).State() == SettlementBuilt(old(PlayerAt(pid).State()))
        && msg == "CPU built settlement at " + v + " (score: " + ShowInt(ScoreSettlementLocation(old(game.board), v, preferred)) + ")"
    {
      var buildable := FindBuildableVertices(game.board, pid);
      if buildable == [] {
        return false, "No valid settlement locations found";
      }
      assert Buildable(game.board, pid, buildable[0]);
      var scored := ScoreAll(game.board, buildable, preferred);
      var sorted := SortByScore(scored);
      BestFirst(game.board, buildable, preferred, scored);
      ok, msg := TrySettlements(pid, sorted);
    }

    /**
     * The last loop of cpu_build_settlement: build_settlement at each corner in
     * turn until one succeeds. Every corner is buildable, so the first try decides.
     */
    method TrySettlements(pid: PlayerId, sorted: seq<(int, VertexId)>) returns (ok: bool, msg: string)
      requires Valid() && -|game.players| <= pid < |game.players| && PlayerAt(pid).Valid()
      requires |sorted| > 0 && forall k :: 0 <= k < |sorted| ==> Buildable(game.board, pid, sorted[k].1)
      modifies game`board, PlayerAt(pid)`resources, PlayerAt(pid)`settlementsRemaining, PlayerAt(pid)`victoryPoints
      ensures Valid() && PlayerAt(pid).Valid()
      ensures ok == CanSettle(old(PlayerAt(pid).State()))
      ensures !ok ==> unchanged(game, PlayerAt(pid)) && msg == "Could not build settlement at any location"
      ensures ok ==> && Buildable(old(game.board), pid, sorted[0].1)
                     && game.board == WithStructure(old(game.board), sorted[0].1, Some(pid), false)
                     && PlayerAt(pid).State() == SettlementBuilt(old(PlayerAt(pid).State()))
                     && msg == "CPU built settlement at " + sorted[0].1 + " (score: " + ShowInt(sorted[0].0) + ")"
    {
      ghost var affordable := CanSettle(PlayerAt(pid).State());
      var k := 0;
      while k < |sorted|
        invariant 0 <= k <= |sorted|
        invariant Valid() && PlayerAt(pid).Valid() && unchanged(game, PlayerAt(pid))
        invariant k > 0 ==> !affordable
      {
        var score := sorted[k].0;
        var v := sorted[k].1;
        BuildableAccepted(game.board, pid, PlayerAt(pid).State(), v);
        var built, _ := BuildSettlement(pid, v);
        if built {
          assert k == 0;
          return true, "CPU built settlement at " + v + " (score: " + ShowInt(score) + ")";
        }
        k := k + 1;
      }
      return false, "Could not build settlement at any location";
    }

    /** Replaces the board by one that differs only in who owns what. */
    method SetBoard(b': BoardGraph)
      requires Valid() && SameLayout(game.board, b') && CitiesOwned(b')
      modifies game`board
      ensures Valid() && game.board == b'
    {
      LayoutKept(game.board, b', resourceLocationMap);
      game.board := b';
    }
  }

  /** The player's side of an accepted build_road: the cost is paid and a road leaves the hand. */
  method TakeRoad(player: Player)
    requires player.Valid() && Covers(player.resources, RoadCost)
    modifies player`resources, player`roadsRemaining
    ensures player.Valid() && player.State() == RoadBuilt(old(player.State()))
  {
    SpendCovered(player.resources, RoadCost);
    Pay(player, RoadCost, [Lumber, Brick]);
    player.roadsRemaining := player.roadsRemaining - 1;
  }

  /** The player's side of an accepted build_settlement: the cost is paid and a settlement leaves the hand for a point. */
  method TakeSettlement(player: Player)
    requires player.Valid() && Covers(player.resources, SettlementCost)
    modifies player`resources, player`settlementsRemaining, player`victoryPoints
    ensures player.Valid() && player.State() == SettlementBuilt(old(player.State()))
  {
    SpendCovered(player.resources, SettlementCost);
    Pay(player, SettlementCost, [Lumber, Brick, Grain, Wool]);
    player.settlementsRemaining := player.settlementsRemaining - 1;
    player.victoryPoints := player.victoryPoints + 1;
  }

  /** The player's side of an accepted upgrade_to_city. */
  method TakeCity(player: Player)
    requires player.Valid() && Covers(player.resources, CityCost)
    modifies player`resources, player`settlementsRemaining, player`citiesRemaining, player`victoryPoints
    ensures player.Valid() && player.State() == CityBuilt(old(player.State()))
  {
    SpendCovered(player.resources, CityCost);
    Pay(player, CityCost, [Grain, Ore]);
    player.settlementsRemaining := player.settlementsRemaining + 1;
    player.citiesRemaining := player.citiesRemaining - 1;
    player.victoryPoints := player.victoryPoints + 1;
  }
}
