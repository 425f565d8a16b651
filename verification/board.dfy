/**
 * The board of model/board.py: the fixed corner-adjacency table of the standard
 * layout, the terrain and number-token pools, and the board graph that the rest of
 * the game queries (corners, roads and hexes keyed by id).
 */
module Board {
  import opened Wrappers
  import opened Enums
  import opened CatanLayout

  // ---------------------------------------------------------------------------
  // The standard layout tables
  // ---------------------------------------------------------------------------

  /** Name of corner i: "A".."Z" for 0..25, "A2".."Z2" for 26..51, "A3" and "B3" for 52 and 53. */
  function CatanVertexName(i: nat): (s: string)
    requires i < CatanVertexCount
    ensures 1 <= |s| <= 2 && 'A' <= s[0] <= 'Z'
  {
    [('A' as int + i % 26) as char] + (if i < 26 then "" else if i < 52 then "2" else "3")
  }

  lemma CatanVertexNameInjective(i: nat, j: nat)
    requires i < CatanVertexCount && j < CatanVertexCount
    requires CatanVertexName(i) == CatanVertexName(j)
    ensures i == j
  {
    var si, sj := CatanVertexName(i), CatanVertexName(j);
    assert si[0] == sj[0];
    assert i % 26 == j % 26;
    if i < 26 || j < 26 {
      assert |si| == |sj|;
    } else {
      assert si[1] == sj[1];
    }
  }

  function CatanNames(adj: seq<int>): (names: seq<string>)
    requires forall k :: 0 <= k < |adj| ==> 0 <= adj[k] < CatanVertexCount
    ensures |names| == |adj|
  {
    seq(|adj|, k requires 0 <= k < |adj| => CatanVertexName(adj[k]))
  }

  /** catan_graph: each corner name mapped to the names of its adjacent corners. */
  function CatanGraph(): map<string, seq<string>>
  {
    forall i: int, j: int | 0 <= i < CatanVertexCount && 0 <= j < CatanVertexCount && CatanVertexName(i) == CatanVertexName(j)
      ensures i == j
    {
      CatanVertexNameInjective(i, j);
    }
    map i | 0 <= i < CatanVertexCount :: CatanVertexName(i) := CatanRow(i)
  }

  /** The names listed for corner i in catan_graph. */
  function CatanRow(i: nat): seq<string>
    requires i < CatanVertexCount
  {
    CatanAdjacencyInRange(i);
    CatanNames(CatanAdjacency(i))
  }

  lemma CatanGraphLookup(i: nat)
    requires i < CatanVertexCount
    ensures CatanVertexName(i) in CatanGraph()
    ensures CatanGraph()[CatanVertexName(i)] == CatanRow(i)
  {
    var g := CatanGraph();
    assert CatanVertexName(i) in g;
    var j :| 0 <= j < CatanVertexCount && CatanVertexName(j) == CatanVertexName(i) && g[CatanVertexName(i)] == CatanRow(j);
    CatanVertexNameInjective(i, j);
  }

  /** Every key of catan_graph is the name of one of the 54 corners. */
  lemma CatanGraphKeys(v: string)
    requires v in CatanGraph()
    ensures exists i: nat :: i < CatanVertexCount && v == CatanVertexName(i)
  {
  }

  lemma {:induction false} CatanNamesCount(n: nat)
    requires n <= CatanVertexCount
    ensures |set i | 0 <= i < n :: CatanVertexName(i)| == n
  {
    if n > 0 {
      var smaller := set i | 0 <= i < n - 1 :: CatanVertexName(i);
      var all := set i | 0 <= i < n :: CatanVertexName(i);
      assert all == smaller + {CatanVertexName(n - 1)};
      if CatanVertexName(n - 1) in smaller {
        var j :| 0 <= j < n - 1 && CatanVertexName(j) == CatanVertexName(n - 1);
        CatanVertexNameInjective(j, n - 1);
      }
      CatanNamesCount(n - 1);
    }
  }

  /** catan_graph has 54 corners, the corner count of the standard board. */
  lemma CatanGraphSize()
    ensures |CatanGraph()| == 54
  {
    var g := CatanGraph();
    var names := set i | 0 <= i < CatanVertexCount :: CatanVertexName(i);
    forall v | v in g ensures v in names {
      CatanGraphKeys(v);
    }
    forall v | v in names ensures v in g {
      var i :| 0 <= i < CatanVertexCount && v == CatanVertexName(i);
      CatanGraphLookup(i);
    }
    assert g.Keys == names;
    CatanNamesCount(CatanVertexCount);
  }

  /** Adjacency in catan_graph is symmetric: w is listed for v exactly when v is listed for w. */
  lemma CatanGraphSymmetric(v: string, w: string)
    requires v in CatanGraph() && w in CatanGraph()[v]
    ensures w in CatanGraph() && v in CatanGraph()[w]
  {
    var g := CatanGraph();
    CatanGraphKeys(v);
    var i: nat :| i < CatanVertexCount && v == CatanVertexName(i);
    CatanGraphLookup(i);
    CatanAdjacencyInRange(i);
    var k :| 0 <= k < |CatanAdjacency(i)| && w == CatanNames(CatanAdjacency(i))[k];
    var j: nat := CatanAdjacency(i)[k];
    assert w == CatanVertexName(j);
    CatanGraphLookup(j);
    CatanAdjacencySymmetric(i, j);
    CatanAdjacencyInRange(j);
    var k' :| 0 <= k' < |CatanAdjacency(j)| && CatanAdjacency(j)[k'] == i;
    assert CatanNames(CatanAdjacency(j))[k'] == v;
  }

  /** Every corner of catan_graph lists two or three distinct neighbours and never itself. */
  lemma CatanGraphDegree(v: string)
    requires v in CatanGraph()
    ensures 2 <= |CatanGraph()[v]| <= 3
    ensures v !in CatanGraph()[v]
    ensures forall a, b :: 0 <= a < b < |CatanGraph()[v]| ==> CatanGraph()[v][a] != CatanGraph()[v][b]
  {
    CatanGraphKeys(v);
    var i: nat :| i < CatanVertexCount && v == CatanVertexName(i);
    CatanGraphLookup(i);
    CatanAdjacencyInRange(i);
    CatanAdjacencyDegree(i);
    var names := CatanGraph()[v];
    if v in names {
      var k :| 0 <= k < |names| && names[k] == v;
      CatanVertexNameInjective(CatanAdjacency(i)[k], i);
    }
    forall a, b | 0 <= a < b < |names| ensures names[a] != names[b] {
      if names[a] == names[b] {
        CatanVertexNameInjective(CatanAdjacency(i)[a], CatanAdjacency(i)[b]);
      }
    }
  }

  // ---------------------------------------------------------------------------
  // Terrain and number-token pools
  // ---------------------------------------------------------------------------

  /** The terrains named in RESOURCE_POOL ("forest", "pasture", "field", "hill", "mountain", "desert"). */
  datatype Terrain = Forest | Pasture | Field | Hill | Mountain | DesertTerrain

  /** RESOURCE_POOL: the terrains dealt to the 19 hexes of the standard board. */
  const ResourcePool: seq<Terrain> := [
    Forest, Forest, Forest, Forest,
    Pasture, Pasture, Pasture, Pasture,
    Field, Field, Field, Field,
    Hill, Hill, Hill,
    Mountain, Mountain, Mountain,
    DesertTerrain]

  /** CHITS: the number tokens placed on the non-desert hexes. */
  const Chits: seq<int> := [2, 3, 3, 4, 4, 5, 5, 6, 6, 8, 8, 9, 9, 10, 10, 11, 11, 12]

  function Repeat(t: Terrain, n: nat): seq<Terrain> {
    seq(n, _ => t)
  }

  lemma {:induction false} RepeatCount(t: Terrain, n: nat, u: Terrain)
    ensures multiset(Repeat(t, n))[u] == if u == t then n else 0
  {
    if n > 0 {
      assert Repeat(t, n) == Repeat(t, n - 1) + [t];
      RepeatCount(t, n - 1, u);
    }
  }

  /** How many hexes of each terrain the standard board has. */
  function TerrainShare(t: Terrain): nat {
    match t
    case Forest => 4
    case Pasture => 4
    case Field => 4
    case Hill => 3
    case Mountain => 3
    case DesertTerrain => 1
  }

  lemma ResourcePoolSegments()
    ensures ResourcePool == Repeat(Forest, 4) + Repeat(Pasture, 4) + Repeat(Field, 4)
                          + Repeat(Hill, 3) + Repeat(Mountain, 3) + Repeat(DesertTerrain, 1)
  {
  }

  /** The pool holds 19 terrains, with each terrain as often as TerrainShare says: one desert. */
  lemma ResourcePoolContents(t: Terrain)
    ensures |ResourcePool| == 19
    ensures multiset(ResourcePool)[t] == TerrainShare(t)
  {
    ResourcePoolSegments();
    BlockCounts(ResourcePool, t);
  }

  /** A list made of the six blocks of the pool holds each terrain TerrainShare times. */
  lemma BlockCounts(s: seq<Terrain>, t: Terrain)
    requires s == Repeat(Forest, 4) + Repeat(Pasture, 4) + Repeat(Field, 4)
                + Repeat(Hill, 3) + Repeat(Mountain, 3) + Repeat(DesertTerrain, 1)
    ensures multiset(s)[t] == TerrainShare(t)
  {
    RepeatCount(Forest, 4, t);
    RepeatCount(Pasture, 4, t);
    RepeatCount(Field, 4, t);
    RepeatCount(Hill, 3, t);
    RepeatCount(Mountain, 3, t);
    RepeatCount(DesertTerrain, 1, t);
  }

  /** One token per non-desert terrain, each in 2..12 and never 7. */
  lemma ChitsShape()
    ensures |Chits| == |ResourcePool| - TerrainShare(DesertTerrain)
    ensures forall c :: c in Chits ==> 2 <= c <= 12 && c != 7
  {
  }

  // ---------------------------------------------------------------------------
  // Pips
  // ---------------------------------------------------------------------------

  /**
   * pip(number): the dot count printed on a number token; 2 and 12 give 1, 3 and 11
   * give 2, up to 6 and 8 giving 5. A missing or impossible number gives 0.
   */
  function Pip(number: Option<int>): (p: nat)
    ensures p <= 5
    ensures p == 0 <==> number.None? || number.value < 2 || number.value > 12 || number.value == 7
  {
    match number
    case None => 0
    case Some(n) =>
      if 2 <= n <= 6 then n - 1
      else if 8 <= n <= 12 then 13 - n
      else 0
  }

  /** The number of ordered outcomes of two six-sided dice, first die at least d, that total n. */
  function DiceOutcomesFrom(n: int, d: int): nat
    decreases 7 - d
  {
    if d > 6 then 0
    else (if 1 <= n - d <= 6 then 1 else 0) + DiceOutcomesFrom(n, d + 1)
  }

  function DiceOutcomes(n: int): nat {
    DiceOutcomesFrom(n, 1)
  }

  lemma {:induction false} DiceOutcomesOutOfRange(n: int, d: int)
    requires d >= 1 && (n < 2 || n > 12)
    ensures DiceOutcomesFrom(n, d) == 0
    decreases 7 - d
  {
    if d <= 6 {
      DiceOutcomesOutOfRange(n, d + 1);
    }
  }

  /** The pip count of every number other than 7 is the number of ways two dice roll it. */
  lemma PipCountsDiceOutcomes(n: int)
    requires n != 7
    ensures Pip(Some(n)) == DiceOutcomes(n)
  {
    if n < 2 || n > 12 {
      DiceOutcomesOutOfRange(n, 1);
    } else if n == 2 { assert DiceOutcomes(2) == 1; }
    else if n == 3 { assert DiceOutcomes(3) == 2; }
    else if n == 4 { assert DiceOutcomes(4) == 3; }
    else if n == 5 { assert DiceOutcomes(5) == 4; }
    else if n == 6 { assert DiceOutcomes(6) == 5; }
    else if n == 8 { assert DiceOutcomes(8) == 5; }
    else if n == 9 { assert DiceOutcomes(9) == 4; }
    else if n == 10 { assert DiceOutcomes(10) == 3; }
    else if n == 11 { assert DiceOutcomes(11) == 2; }
    else { assert DiceOutcomes(12) == 1; }
  }

  /** Numbers at equal distance from 7 carry the same pips: pip(n) == pip(14 - n). */
  lemma PipSymmetric(n: int)
    ensures Pip(Some(n)) == Pip(Some(14 - n))
  {
  }

  /** Every token of the pool carries at least one pip. */
  lemma ChitsHavePips()
    ensures forall c :: c in Chits ==> 1 <= Pip(Some(c))
  {
    ChitsShape();
  }

  // ---------------------------------------------------------------------------
  // The board graph
  // ---------------------------------------------------------------------------

  type VertexId = string
  type EdgeId = int
  type HexId = int
  type PlayerId = int

  /** A corner: its incident roads, its adjacent hexes and the structure built on it. */
  datatype Vertex = Vertex(edgeIds: seq<EdgeId>, hexIds: seq<HexId>, owner: Option<PlayerId>, isCity: bool)

  /** A road slot between two corners, and the player who built on it. */
  datatype Edge = Edge(v1: VertexId, v2: VertexId, owner: Option<PlayerId>)

  /** A hex: the resource it yields (none for the desert) and its number token. */
  datatype HexTile = HexTile(resource: Option<Resource>, number: Option<int>)

  /**
   * The board: corners, roads and hexes by id. vertexOrder and hexOrder list the
   * keys in the order the board's dictionaries were filled, which is the order the
   * source iterates them in.
   */
  datatype BoardGraph = BoardGraph(
    vertices: map<VertexId, Vertex>,
    edges: map<EdgeId, Edge>,
    hexes: map<HexId, HexTile>,
    vertexOrder: seq<VertexId>,
    hexOrder: seq<HexId>)

  predicate Distinct<T(==)>(s: seq<T>) {
    forall i, j :: 0 <= i < j < |s| ==> s[i] != s[j]
  }

  /**
   * The shape every board has: roads join two different existing corners and are
   * listed at both, corner lists hold no repeats and name existing roads and hexes,
   * and the two order lists enumerate the keys once each.
   */
  predicate WellFormed(b: BoardGraph) {
    && (forall e :: e in b.edges ==>
          b.edges[e].v1 in b.vertices && b.edges[e].v2 in b.vertices && b.edges[e].v1 != b.edges[e].v2)
    && (forall e :: e in b.edges ==>
          e in b.vertices[b.edges[e].v1].edgeIds && e in b.vertices[b.edges[e].v2].edgeIds)
    && (forall v, e :: v in b.vertices && e in b.vertices[v].edgeIds ==>
          e in b.edges && (b.edges[e].v1 == v || b.edges[e].v2 == v))
    && (forall v, h :: v in b.vertices && h in b.vertices[v].hexIds ==> h in b.hexes)
    && (forall v :: v in b.vertices ==> Distinct(b.vertices[v].edgeIds) && Distinct(b.vertices[v].hexIds))
    && Distinct(b.vertexOrder)
    && (forall v :: v in b.vertexOrder ==> v in b.vertices) && (forall v :: v in b.vertices ==> v in b.vertexOrder)
    && Distinct(b.hexOrder)
    && (forall h :: h in b.hexOrder ==> h in b.hexes) && (forall h :: h in b.hexes ==> h in b.hexOrder)
  }

  /** A city always has an owner: a structure is a settlement or a city, never an unowned city. */
  predicate CitiesOwned(b: BoardGraph) {
    forall v :: v in b.vertices && b.vertices[v].isCity ==> b.vertices[v].owner.Some?
  }

  /** other_end(e, v): the endpoint of road e that is not v. */
  function OtherEnd(b: BoardGraph, e: EdgeId, v: VertexId): (w: VertexId)
    requires e in b.edges
    ensures w == b.edges[e].v1 || w == b.edges[e].v2
    ensures (v == b.edges[e].v1 || v == b.edges[e].v2) && b.edges[e].v1 != b.edges[e].v2 ==> w != v
  {
    if b.edges[e].v1 == v then b.edges[e].v2 else b.edges[e].v1
  }

  /** Walking a road there and back returns to the start. */
  lemma OtherEndInvolution(b: BoardGraph, e: EdgeId, v: VertexId)
    requires e in b.edges && (v == b.edges[e].v1 || v == b.edges[e].v2)
    ensures OtherEnd(b, e, OtherEnd(b, e, v)) == v
  {
  }

  /** Every road listed at a corner leads to a corner of the board. */
  lemma OtherEndIsVertex(b: BoardGraph, v: VertexId, e: EdgeId)
    requires WellFormed(b) && v in b.vertices && e in b.vertices[v].edgeIds
    ensures e in b.edges && OtherEnd(b, e, v) in b.vertices
  {
  }

  /** neighbors(v): the far end of every road listed at v, in the order the roads are listed. */
  function Neighbors(b: BoardGraph, v: VertexId): (ns: seq<VertexId>)
    requires WellFormed(b) && v in b.vertices
    ensures |ns| == |b.vertices[v].edgeIds|
    ensures forall w :: w in ns ==> w in b.vertices && w != v
  {
    var ids := b.vertices[v].edgeIds;
    seq(|ids|, k requires 0 <= k < |ids| => OtherEnd(b, ids[k], v))
  }

  /** Two corners are neighbours exactly when some road joins them, so the relation is symmetric. */
  lemma NeighborsIffRoad(b: BoardGraph, v: VertexId, w: VertexId)
    requires WellFormed(b) && v in b.vertices && w in b.vertices
    ensures w in Neighbors(b, v) <==>
      exists e :: e in b.edges && ((b.edges[e].v1 == v && b.edges[e].v2 == w) || (b.edges[e].v1 == w && b.edges[e].v2 == v))
    ensures w in Neighbors(b, v) <==> v in Neighbors(b, w)
  {
    forall e | e in b.edges && ((b.edges[e].v1 == v && b.edges[e].v2 == w) || (b.edges[e].v1 == w && b.edges[e].v2 == v))
      ensures w in Neighbors(b, v) && v in Neighbors(b, w)
    {
      var iv :| 0 <= iv < |b.vertices[v].edgeIds| && b.vertices[v].edgeIds[iv] == e;
      assert Neighbors(b, v)[iv] == w;
      var iw :| 0 <= iw < |b.vertices[w].edgeIds| && b.vertices[w].edgeIds[iw] == e;
      assert Neighbors(b, w)[iw] == v;
    }
    if w in Neighbors(b, v) {
      var k :| 0 <= k < |b.vertices[v].edgeIds| && Neighbors(b, v)[k] == w;
      var e := b.vertices[v].edgeIds[k];
      assert e in b.edges && ((b.edges[e].v1 == v && b.edges[e].v2 == w) || (b.edges[e].v1 == w && b.edges[e].v2 == v));
    }
    if v in Neighbors(b, w) {
      var k :| 0 <= k < |b.vertices[w].edgeIds| && Neighbors(b, w)[k] == v;
      var e := b.vertices[w].edgeIds[k];
      assert e in b.edges && ((b.edges[e].v1 == v && b.edges[e].v2 == w) || (b.edges[e].v1 == w && b.edges[e].v2 == v));
    }
  }

  /** The distance rule at corner v: no neighbouring corner carries a structure. */
  predicate NeighboursFree(b: BoardGraph, v: VertexId)
    requires WellFormed(b) && v in b.vertices
  {
    forall w :: w in Neighbors(b, v) ==> b.vertices[w].owner.None?
  }

  /** The distance rule read through roads: no road at v leads to an occupied corner. */
  lemma NeighboursFreeIffNoRoadToOwned(b: BoardGraph, v: VertexId)
    requires WellFormed(b) && v in b.vertices
    ensures NeighboursFree(b, v) <==>
      forall e :: e in b.edges && (b.edges[e].v1 == v || b.edges[e].v2 == v) ==> b.vertices[OtherEnd(b, e, v)].owner.None?
  {
    var ids := b.vertices[v].edgeIds;
    if NeighboursFree(b, v) {
      forall e | e in b.edges && (b.edges[e].v1 == v || b.edges[e].v2 == v)
        ensures b.vertices[OtherEnd(b, e, v)].owner.None?
      {
        var k :| 0 <= k < |ids| && ids[k] == e;
        assert Neighbors(b, v)[k] == OtherEnd(b, e, v);
      }
    }
    if forall e :: e in b.edges && (b.edges[e].v1 == v || b.edges[e].v2 == v) ==> b.vertices[OtherEnd(b, e, v)].owner.None? {
      forall w | w in Neighbors(b, v) ensures b.vertices[w].owner.None? {
        var k :| 0 <= k < |ids| && Neighbors(b, v)[k] == w;
        assert ids[k] in b.edges && (b.edges[ids[k]].v1 == v || b.edges[ids[k]].v2 == v);
      }
    }
  }

  function HexPip(b: BoardGraph, h: HexId): nat {
    if h in b.hexes then Pip(b.hexes[h].number) else 0
  }

  function SumPips(b: BoardGraph, hs: seq<HexId>): (total: nat)
    ensures total <= 5 * |hs|
  {
    if hs == [] then 0 else HexPip(b, hs[0]) + SumPips(b, hs[1..])
  }

  /** vertex_pip(v): the pips of the hexes around corner v, added up. */
  function VertexPip(b: BoardGraph, v: VertexId): (total: nat)
    requires v in b.vertices
    ensures total <= 5 * |b.vertices[v].hexIds|
  {
    SumPips(b, b.vertices[v].hexIds)
  }

  // ---------------------------------------------------------------------------
  // Changing who owns what
  // ---------------------------------------------------------------------------

  /** Two boards with the same corners, roads, hexes and orders, differing at most in ownership. */
  predicate SameLayout(b: BoardGraph, b': BoardGraph) {
    && b'.hexes == b.hexes
    && b'.vertexOrder == b.vertexOrder && b'.hexOrder == b.hexOrder
    && b'.vertices.Keys == b.vertices.Keys && b'.edges.Keys == b.edges.Keys
    && (forall v :: v in b.vertices ==>
          b'.vertices[v].edgeIds == b.vertices[v].edgeIds && b'.vertices[v].hexIds == b.vertices[v].hexIds)
    && (forall e :: e in b.edges ==> b'.edges[e].v1 == b.edges[e].v1 && b'.edges[e].v2 == b.edges[e].v2)
  }

  lemma SameLayoutWellFormed(b: BoardGraph, b': BoardGraph)
    requires WellFormed(b) && SameLayout(b, b')
    ensures WellFormed(b')
  {
    forall e | e in b'.edges
      ensures b'.edges[e].v1 in b'.vertices && b'.edges[e].v2 in b'.vertices && b'.edges[e].v1 != b'.edges[e].v2
      ensures e in b'.vertices[b'.edges[e].v1].edgeIds && e in b'.vertices[b'.edges[e].v2].edgeIds
    {
      assert b'.edges[e].v1 == b.edges[e].v1 && b'.edges[e].v2 == b.edges[e].v2;
    }
    forall v, e | v in b'.vertices && e in b'.vertices[v].edgeIds
      ensures e in b'.edges && (b'.edges[e].v1 == v || b'.edges[e].v2 == v)
    {
      assert e in b.vertices[v].edgeIds;
    }
    forall v, h | v in b'.vertices && h in b'.vertices[v].hexIds
      ensures h in b'.hexes
    {
      assert h in b.vertices[v].hexIds;
    }
    forall v | v in b'.vertices
      ensures Distinct(b'.vertices[v].edgeIds) && Distinct(b'.vertices[v].hexIds)
    {
      assert b'.vertices[v].edgeIds == b.vertices[v].edgeIds;
    }
  }

  /** The board after player pid builds on road e. */
  function WithRoad(b: BoardGraph, e: EdgeId, owner: Option<PlayerId>): (b': BoardGraph)
    requires e in b.edges
    ensures SameLayout(b, b')
  {
    b.(edges := b.edges[e := b.edges[e].(owner := owner)])
  }

  /** The board after corner v gets the given structure. */
  function WithStructure(b: BoardGraph, v: VertexId, owner: Option<PlayerId>, isCity: bool): (b': BoardGraph)
    requires v in b.vertices
    ensures SameLayout(b, b')
  {
    b.(vertices := b.vertices[v := b.vertices[v].(owner := owner, isCity := isCity)])
  }
}
