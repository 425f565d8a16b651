/**
 * The dice and robber part of a turn, engine/turn_engine.py: player views with
 * their resource counters, production on a roll, and the seven sequence
 * (discard half, move the robber, steal one card). The random choices of the
 * default policies are nondeterministic choices here; the pluggable policies
 * are fields of the engine.
 */
module TurnEngine {
  import opened Wrappers

  /** Resource names ("wood", "brick", ...) and player ids are strings in the engine. */
  type ResName = string
  type PlayerID = string

  /** A Counter of cards: a name that is absent counts 0. */
  type Hand = map<ResName, int>

  function Count(h: Hand, r: ResName): int {
    if r in h then h[r] else 0
  }

  predicate NonNegative(h: Hand) {
    forall r :: r in h ==> h[r] >= 0
  }

  predicate Positive(h: Hand) {
    forall r :: r in h ==> h[r] > 0
  }

  /** sum(h.values()). */
  ghost function Total(h: Hand): int
    decreases |h|
  {
    if h == map[] then 0 else var r :| r in h; h[r] + Total(h - {r})
  }

  /** Any entry can be taken out of the sum first. */
  lemma {:induction false} TotalRemove(h: Hand, r: ResName)
    requires r in h
    ensures Total(h) == h[r] + Total(h - {r})
    decreases |h|
  {
    var q :| q in h && Total(h) == h[q] + Total(h - {q});
    if q != r {
      TotalRemove(h - {q}, r);
      TotalRemove(h - {r}, q);
      assert h - {q} - {r} == h - {r} - {q};
    }
  }

  /** Setting one entry changes the sum by the difference of the counts. */
  lemma TotalSet(h: Hand, r: ResName, c: int)
    ensures Total(h[r := c]) == Total(h) - Count(h, r) + c
  {
    TotalRemove(h[r := c], r);
    assert h[r := c] - {r} == h - {r};
    if r in h {
      TotalRemove(h, r);
    } else {
      assert h - {r} == h;
    }
  }

  /** Deleting one entry takes its count off the sum. */
  lemma TotalDelete(h: Hand, r: ResName)
    ensures Total(h - {r}) == Total(h) - Count(h, r)
  {
    if r in h {
      TotalRemove(h, r);
    } else {
      assert h - {r} == h;
    }
  }

  /** A counter with no negative entry has a non-negative sum, and a positive sum only if it holds a card. */
  lemma {:induction false} TotalNonNegative(h: Hand)
    requires NonNegative(h)
    ensures Total(h) >= 0
    ensures Total(h) > 0 ==> exists r :: r in h && h[r] > 0
    ensures Positive(h) && h != map[] ==> Total(h) > 0
    decreases |h|
  {
    if h != map[] {
      var r :| r in h;
      TotalRemove(h, r);
      TotalNonNegative(h - {r});
      if Total(h) > 0 && h[r] <= 0 {
        var q :| q in h - {r} && (h - {r})[q] > 0;
        assert h[q] > 0;
      }
    }
  }

  /** The counter after add(r, n): only a positive amount is added. */
  function Added(h: Hand, r: ResName, n: int): Hand {
    if n > 0 then h[r := Count(h, r) + n] else h
  }

  /** The counter after a remove(r, n) that succeeded: the entry is deleted when it reaches 0. */
  function Removed(h: Hand, r: ResName, n: int): Hand {
    var c := Count(h, r) - n;
    if c == 0 then h - {r} else h[r := c]
  }

  lemma AddedCounts(h: Hand, r: ResName, n: int)
    ensures Count(Added(h, r, n), r) == Count(h, r) + (if n > 0 then n else 0)
    ensures forall q :: q != r ==> Count(Added(h, r, n), q) == Count(h, q)
    ensures Total(Added(h, r, n)) == Total(h) + (if n > 0 then n else 0)
    ensures NonNegative(h) ==> NonNegative(Added(h, r, n))
  {
    if n > 0 {
      TotalSet(h, r, Count(h, r) + n);
    }
  }

  lemma RemovedCounts(h: Hand, r: ResName, n: int)
    requires NonNegative(h) && Count(h, r) >= n
    ensures Count(Removed(h, r, n), r) == Count(h, r) - n
    ensures forall q :: q != r ==> Count(Removed(h, r, n), q) == Count(h, q)
    ensures Total(Removed(h, r, n)) == Total(h) - n
    ensures NonNegative(Removed(h, r, n))
    ensures Positive(h) && n >= 0 ==> Positive(Removed(h, r, n))
    ensures Removed(h, r, n).Keys <= h.Keys + {r}
  {
    if Count(h, r) - n == 0 {
      TotalDelete(h, r);
    } else {
      TotalSet(h, r, Count(h, r) - n);
    }
  }

  /** Counter addition with +=: the counts are summed and only positive results are kept. */
  function Merged(a: Hand, b: Hand): (m: Hand)
    ensures Positive(m)
    ensures forall r :: Count(a, r) + Count(b, r) > 0 ==> Count(m, r) == Count(a, r) + Count(b, r)
    ensures forall r :: Count(a, r) + Count(b, r) <= 0 ==> r !in m
  {
    map r | r in a.Keys + b.Keys && Count(a, r) + Count(b, r) > 0 :: Count(a, r) + Count(b, r)
  }

  /** The sum of a counter's values, computed as the source does. */
  method SumValues(h: Hand) returns (t: int)
    ensures t == Total(h)
  {
    t := 0;
    var rest := h;
    while rest != map[]
      invariant t + Total(rest) == Total(h)
      decreases |rest|
    {
      var r :| r in rest;
      TotalRemove(rest, r);
      t := t + rest[r];
      rest := rest - {r};
    }
  }

  // ---------------------------------------------------------------------------
  // Player views
  // ---------------------------------------------------------------------------

  class PlayerView {
    const playerId: PlayerID
    const name: string
    var resources: Hand

    /** Counts never go negative: add only adds, remove only takes what is there. */
    ghost predicate Valid()
      reads this`resources
    {
      NonNegative(resources)
    }

    constructor (playerId: PlayerID, name: string, resources: Hand)
      ensures this.playerId == playerId && this.name == name && this.resources == resources
    {
      this.playerId := playerId;
      this.name := name;
      this.resources := resources;
    }

    /** total_cards: the number of cards held. */
    method TotalCards() returns (t: int)
      ensures t == Total(resources)
      ensures Valid() ==> t >= 0
    {
      t := SumValues(resources);
      if Valid() {
        TotalNonNegative(resources);
      }
    }

    /** add: n cards of res, when n is positive; otherwise nothing changes. */
    method Add(res: ResName, n: int)
      modifies this`resources
      ensures resources == Added(old(resources), res, n)
      ensures Total(resources) == Total(old(resources)) + (if n > 0 then n else 0)
      ensures old(Valid()) ==> Valid()
    {
      AddedCounts(resources, res, n);
      if n > 0 {
        resources := resources[res := Count(resources, res) + n];
      }
    }

    /**
     * remove: succeeds exactly when at least n cards of res are held, and then
     * takes them, deleting the entry at 0; otherwise nothing changes.
     */
    method Remove(res: ResName, n: int) returns (ok: bool)
      requires Valid()
      modifies this`resources
      ensures ok <==> Count(old(resources), res) >= n
      ensures resources == if ok then Removed(old(resources), res, n) else old(resources)
      ensures ok ==> Total(resources) == Total(old(resources)) - n
      ensures Valid()
    {
      if Count(resources, res) >= n {
        RemovedCounts(resources, res, n);
        var c := Count(resources, res) - n;
        if c == 0 {
          resources := resources - {res};
        } else {
          resources := resources[res := c];
        }
        ok := true;
      } else {
        ok := false;
      }
    }

    /**
     * remove_random_cards: takes min(n, total) cards one at a time, each drawn
     * from the cards held, and returns how many of each name it took. The draw
     * needs a card to exist whenever an entry is left: with more to take than
     * is held and an entry at 0, the source draws from an empty pool.
     */
    method RemoveRandomCards(n: int) returns (removed: Hand)
      requires Valid()
      requires n <= Total(resources) || Positive(resources)
      modifies this`resources
      ensures Valid()
      ensures Positive(removed)
      ensures Total(removed) == if n <= 0 then 0 else if n <= Total(old(resources)) then n else Total(old(resources))
      ensures Total(resources) == Total(old(resources)) - Total(removed)
      ensures forall r :: Count(resources, r) + Count(removed, r) == Count(old(resources), r)
      ensures Positive(old(resources)) ==> Positive(resources)
    {
      removed := map[];
      var i := 0;
      while i < n
        invariant Valid() && Positive(removed)
        invariant 0 <= i <= (if n > 0 then n else 0)
        invariant Total(removed) == i
        invariant Total(resources) + i == Total(old(resources))
        invariant forall r :: Count(resources, r) + Count(removed, r) == Count(old(resources), r)
        invariant n <= Total(old(resources)) || Positive(resources)
        invariant Positive(old(resources)) ==> Positive(resources)
      {
        if resources == map[] {
          assert Total(resources) == 0;
          break;
        }
        TotalNonNegative(resources);
        var res :| res in resources && resources[res] > 0;
        RemovedCounts(resources, res, 1);
        var _ := Remove(res, 1);
        TotalSet(removed, res, Count(removed, res) + 1);
        removed := removed[res := Count(removed, res) + 1];
        i := i + 1;
      }
      TotalNonNegative(resources);
    }
  }

  // ---------------------------------------------------------------------------
  // Board snapshot and production
  // ---------------------------------------------------------------------------

  datatype TileView = TileView(tileId: int, number: int, resource: Option<ResName>, vertices: seq<string>, hasRobber: bool)

  /** An entry of vertex_owners: (owner, "settlement" or "city"), or (None, None). */
  datatype VertexOwner = VertexOwner(owner: Option<PlayerID>, structure: Option<string>)

  /** The board as the engine sees it; tileOrder is the insertion order of the tiles dict. */
  datatype BoardSnapshot = BoardSnapshot(
    tiles: map<int, TileView>,
    tileOrder: seq<int>,
    vertexOwners: map<string, VertexOwner>,
    robberTileId: Option<int>)

  /** tileOrder lists each key of tiles exactly once. */
  ghost predicate Ordered(s: BoardSnapshot) {
    (forall i, j :: 0 <= i < j < |s.tileOrder| ==> s.tileOrder[i] != s.tileOrder[j])
    && (forall id :: id in s.tiles <==> id in s.tileOrder)
  }

  /** Every owner named in the snapshot is one of ids. */
  predicate OwnedBy(s: BoardSnapshot, ids: set<PlayerID>) {
    forall v :: v in s.vertexOwners && s.vertexOwners[v].owner.Some? ==> s.vertexOwners[v].owner.value in ids
  }

  /** vertex_owners.get(v, (None, None)). */
  function OwnerAt(owners: map<string, VertexOwner>, v: string): VertexOwner {
    if v in owners then owners[v] else VertexOwner(None, None)
  }

  /** A tile is robbed when it carries the robber flag or is the snapshot's robber tile. */
  predicate Robbed(s: BoardSnapshot, t: TileView) {
    t.hasRobber || s.robberTileId == Some(t.tileId)
  }

  /** A tile pays out on a roll when its number matches, it is not robbed and it has a resource. */
  predicate Produces(s: BoardSnapshot, t: TileView, roll: int) {
    t.number == roll && !Robbed(s, t) && t.resource.Some?
  }

  /** A city pays 2 cards, anything else 1. */
  function Amount(structure: Option<string>): nat {
    if structure == Some("city") then 2 else 1
  }

  /** What the corners vs pay player p: 1 or 2 for each corner p owns. */
  function CornerYield(s: BoardSnapshot, vs: seq<string>, p: PlayerID): nat
    decreases |vs|
  {
    if vs == [] then 0
    else
      var o := OwnerAt(s.vertexOwners, vs[|vs| - 1]);
      CornerYield(s, vs[..|vs| - 1], p) + (if o.owner == Some(p) then Amount(o.structure) else 0)
  }

  /** What tile id pays player p in resource r on a roll. */
  function TileShare(s: BoardSnapshot, id: int, roll: int, p: PlayerID, r: ResName): nat {
    if id in s.tiles && Produces(s, s.tiles[id], roll) && s.tiles[id].resource == Some(r)
    then CornerYield(s, s.tiles[id].vertices, p)
    else 0
  }

  /** What the tiles ids pay player p in resource r on a roll. */
  function Yield(s: BoardSnapshot, ids: seq<int>, roll: int, p: PlayerID, r: ResName): nat
    decreases |ids|
  {
    if ids == [] then 0 else Yield(s, ids[..|ids| - 1], roll, p, r) + TileShare(s, ids[|ids| - 1], roll, p, r)
  }

  /** A player who owns none of the corners pays nothing; each corner pays at most 2. */
  lemma {:induction false} CornerYieldBounds(s: BoardSnapshot, vs: seq<string>, p: PlayerID)
    ensures CornerYield(s, vs, p) <= 2 * |vs|
    ensures (forall v :: v in vs ==> OwnerAt(s.vertexOwners, v).owner != Some(p)) ==> CornerYield(s, vs, p) == 0
    ensures (forall v :: v in vs ==> OwnerAt(s.vertexOwners, v).owner == Some(p) && OwnerAt(s.vertexOwners, v).structure == Some("city"))
      ==> CornerYield(s, vs, p) == 2 * |vs|
    decreases |vs|
  {
    if vs != [] {
      CornerYieldBounds(s, vs[..|vs| - 1], p);
      assert forall v :: v in vs[..|vs| - 1] ==> v in vs;
    }
  }

  /** The robber tile, a tile with another number and a tile without resource pay nothing. */
  lemma {:induction false} YieldSkipsTile(s: BoardSnapshot, ids: seq<int>, roll: int, p: PlayerID, r: ResName, id: int)
    requires id in s.tiles && !Produces(s, s.tiles[id], roll)
    ensures Yield(s, ids + [id], roll, p, r) == Yield(s, ids, roll, p, r)
  {
    assert (ids + [id])[..|ids|] == ids;
  }

  function GainsOf(g: map<PlayerID, Hand>, p: PlayerID): Hand {
    if p in g then g[p] else map[]
  }

  /** The gains recorded so far: only owners listed in ids, each with positive counts. */
  predicate Recorded(g: map<PlayerID, Hand>, ids: set<PlayerID>) {
    forall p :: p in g ==> p in ids && Positive(g[p]) && g[p] != map[]
  }

  /** gained[owner][r] += amount for each owned corner among vs. */
  method GainCorners(s: BoardSnapshot, vs: seq<string>, r: ResName, g: map<PlayerID, Hand>, ghost ids: set<PlayerID>)
    returns (g': map<PlayerID, Hand>)
    requires OwnedBy(s, ids) && Recorded(g, ids)
    ensures Recorded(g', ids)
    ensures forall p, q :: Count(GainsOf(g', p), q) == Count(GainsOf(g, p), q) + (if q == r then CornerYield(s, vs, p) else 0)
  {
    g' := g;
    assert vs[..0] == [];
    assert forall p :: CornerYield(s, vs[..0], p) == 0;
    for j := 0 to |vs|
      invariant Recorded(g', ids)
      invariant forall p, q :: Count(GainsOf(g', p), q) == Count(GainsOf(g, p), q) + (if q == r then CornerYield(s, vs[..j], p) else 0)
    {
      assert vs[..j + 1][..j] == vs[..j];
      var o := OwnerAt(s.vertexOwners, vs[j]);
      if o.owner.Some? {
        var p := o.owner.value;
        var inner := GainsOf(g', p);
        g' := g'[p := inner[r := Count(inner, r) + Amount(o.structure)]];
      }
    }
    assert vs[..|vs|] == vs;
  }

  /** after is before with each count of g added: the entries of g are added, the others kept. */
  predicate CreditedBy(before: Hand, after: Hand, g: Hand) {
    after.Keys == before.Keys + g.Keys
    && forall r :: r in after ==> after[r] == Count(before, r) + Count(g, r)
  }

  lemma CreditedByNothing(h: Hand)
    ensures CreditedBy(h, h, map[])
  {
  }

  // ---------------------------------------------------------------------------
  // Policies and events
  // ---------------------------------------------------------------------------

  /**
   * The discard policy: the default takes random cards; a custom one is given
   * the hand and the number to discard and yields the hand it leaves and the
   * cards it reports.
   */
  datatype DiscardPolicy = RandomDiscard | CustomDiscard(choose: (Hand, int) -> (Hand, Hand))

  /** The steal policy: the default draws a random card; a custom one may name any resource. */
  datatype StealPolicy = RandomSteal | CustomSteal(choose: Hand -> Option<ResName>)

  /**
   * What a custom discard policy must do for the engine to run: keep counts
   * non-negative, and leave a card to draw for every card of the shortfall
   * unless the hand has no entry at 0.
   */
  ghost predicate DiscardPolicyOk(d: DiscardPolicy) {
    d.CustomDiscard? ==>
      forall h: Hand, n: int {:trigger d.choose(h, n)} :: NonNegative(h) ==>
        NonNegative(d.choose(h, n).0) && NonNegative(d.choose(h, n).1)
        && (n - Total(d.choose(h, n).1) <= Total(d.choose(h, n).0) || Positive(d.choose(h, n).0))
  }

  function Min(a: int, b: int): int {
    if a <= b then a else b
  }

  function Max0(a: int): int {
    if a > 0 then a else 0
  }

  /**
   * One player's discard of n cards from before, leaving after and recording
   * removed. The default takes exactly n cards of those held and records
   * them, so no count goes negative or grows. A custom policy's hand stands;
   * a shortfall in what it reports is made up with random cards from that
   * hand, as many as it holds.
   */
  ghost predicate Discarded(d: DiscardPolicy, before: Hand, n: int, after: Hand, removed: Hand) {
    match d
    case RandomDiscard =>
      Total(after) == Total(before) - n && NonNegative(after) && NonNegative(removed)
      && forall r :: Count(after, r) + Count(removed, r) == Count(before, r)
    case CustomDiscard(choose) =>
      var h1 := choose(before, n).0;
      var reported := choose(before, n).1;
      var short := n - Total(reported);
      if short <= 0 then after == h1 && removed == reported
      else
        Total(after) == Total(h1) - Min(short, Total(h1))
        && (forall r :: Count(after, r) <= Count(h1, r))
        && (forall r :: Count(removed, r) == Max0(Count(reported, r) + Count(h1, r) - Count(after, r)))
  }

  /** Who a discard touches: exactly the players holding more than 7 cards, each losing half rounded down. */
  ghost predicate DiscardedAll(d: DiscardPolicy, before: map<PlayerID, Hand>, after: map<PlayerID, Hand>, discards: map<PlayerID, Hand>) {
    after.Keys == before.Keys
    && (forall p :: p in discards <==> p in before && Total(before[p]) > 7)
    && (forall p :: p in before && p !in discards ==> after[p] == before[p])
    && (forall p :: p in discards ==> Discarded(d, before[p], Total(before[p]) / 2, after[p], discards[p]))
  }

  /**
   * The discard loop's progress over the players in done: those who held more
   * than 7 cards at the start have discarded half, the others hold what they held.
   */
  ghost predicate DiscardedSoFar(d: DiscardPolicy, before: map<PlayerID, Hand>, done: set<PlayerID>,
                                 discards: map<PlayerID, Hand>, hands: map<PlayerID, Hand>) {
    && before.Keys == hands.Keys
    && (forall p :: p in discards <==> p in done && p in before && Total(before[p]) > 7)
    && (forall p :: p in hands && p !in discards ==> hands[p] == before[p])
    && (forall p :: p in discards ==> Discarded(d, before[p], Total(before[p]) / 2, hands[p], discards[p]))
  }

  /** After player pid, not yet seen, discards half of the hand held at the start, the progress covers pid too. */
  lemma DiscardedOneMore(d: DiscardPolicy, before: map<PlayerID, Hand>, done: set<PlayerID>, discards0: map<PlayerID, Hand>,
                         hands0: map<PlayerID, Hand>, pid: PlayerID, after: Hand, removed: Hand)
    requires DiscardedSoFar(d, before, done, discards0, hands0) && pid in hands0 && pid !in done
    requires Total(hands0[pid]) > 7
    requires Discarded(d, hands0[pid], Total(hands0[pid]) / 2, after, removed)
    ensures DiscardedSoFar(d, before, done + {pid}, discards0[pid := removed], hands0[pid := after])
  {
    assert pid !in discards0;
    assert hands0[pid] == before[pid];
  }

  /** A player not yet seen who held at most 7 cards at the start discards nothing. */
  lemma KeptUnder(d: DiscardPolicy, before: map<PlayerID, Hand>, done: set<PlayerID>, discards: map<PlayerID, Hand>,
                  hands: map<PlayerID, Hand>, pid: PlayerID)
    requires DiscardedSoFar(d, before, done, discards, hands) && pid in hands && pid !in done
    requires Total(hands[pid]) <= 7
    ensures DiscardedSoFar(d, before, done + {pid}, discards, hands)
  {
    assert pid !in discards;
  }

  /** The owners other than the current player at the corners vs (owners that are empty strings are ignored). */
  function Opponents(owners: map<string, VertexOwner>, vs: seq<string>, current: PlayerID): (ps: set<PlayerID>)
    ensures forall p :: p in ps <==> p != "" && p != current && exists v :: v in vs && OwnerAt(owners, v).owner == Some(p)
    decreases |vs|
  {
    if vs == [] then {}
    else
      var o := OwnerAt(owners, vs[|vs| - 1]);
      var rest := Opponents(owners, vs[..|vs| - 1], current);
      assert forall v :: v in vs <==> v in vs[..|vs| - 1] || v == vs[|vs| - 1];
      if o.owner.Some? && o.owner.value != "" && o.owner.value != current then rest + {o.owner.value} else rest
  }

  /** The opponents at any corners are among the players the snapshot's owners come from. */
  lemma OpponentsAmong(s: BoardSnapshot, ids: set<PlayerID>, vs: seq<string>, current: PlayerID)
    requires OwnedBy(s, ids)
    ensures Opponents(s.vertexOwners, vs, current) <= ids
  {
    forall p | p in Opponents(s.vertexOwners, vs, current) ensures p in ids {
      var v :| v in vs && OwnerAt(s.vertexOwners, v).owner == Some(p);
      assert v in s.vertexOwners;
    }
  }

  /**
   * The robber's move to target: the old robber tile loses its flag, the
   * target gains it and becomes the robber tile; nothing else changes.
   */
  ghost predicate RobberMoved(before: BoardSnapshot, target: int, after: BoardSnapshot) {
    target in before.tiles
    && after == before.(tiles := Cleared(before)[target := Cleared(before)[target].(hasRobber := true)], robberTileId := Some(target))
  }

  /** The tiles with the robber flag taken off the robber tile, if it is one of them. */
  function Cleared(s: BoardSnapshot): (tiles: map<int, TileView>)
    ensures tiles.Keys == s.tiles.Keys
  {
    if s.robberTileId.Some? && s.robberTileId.value in s.tiles
    then s.tiles[s.robberTileId.value := s.tiles[s.robberTileId.value].(hasRobber := false)]
    else s.tiles
  }

  /**
   * After the move the target is flagged and named and otherwise unchanged;
   * every other tile is as before, except the old robber tile, which is
   * unflagged; the corners' owners are untouched.
   */
  lemma RobberMovedFlags(before: BoardSnapshot, target: int, after: BoardSnapshot)
    requires RobberMoved(before, target, after)
    ensures after.robberTileId == Some(target) && after.tiles[target] == before.tiles[target].(hasRobber := true)
    ensures after.vertexOwners == before.vertexOwners
    ensures after.tiles.Keys == before.tiles.Keys
    ensures forall id :: id in after.tiles && id != target ==>
      after.tiles[id] == if before.robberTileId == Some(id) then before.tiles[id].(hasRobber := false) else before.tiles[id]
    ensures before.robberTileId.Some? && before.robberTileId.value in before.tiles && before.robberTileId != Some(target)
      ==> !after.tiles[before.robberTileId.value].hasRobber
  {
  }

  /**
   * A steal of res from victim by thief: the victim gives the card up when it
   * holds one, and the thief gains the card either way.
   */
  ghost predicate Stolen(before: map<PlayerID, Hand>, after: map<PlayerID, Hand>, thief: PlayerID, victim: PlayerID, res: ResName) {
    thief in before && victim in before && thief != victim && after.Keys == before.Keys
    && after[victim] == (if Count(before[victim], res) >= 1 then Removed(before[victim], res, 1) else before[victim])
    && after[thief] == Added(before[thief], res, 1)
    && forall p :: p in before && p != thief && p != victim ==> after[p] == before[p]
  }

  /** A steal of a card the victim holds moves it: victim and thief together hold as many cards as before. */
  lemma StealMovesCard(before: map<PlayerID, Hand>, after: map<PlayerID, Hand>, thief: PlayerID, victim: PlayerID, res: ResName)
    requires Stolen(before, after, thief, victim, res) && NonNegative(before[victim])
    requires Count(before[victim], res) >= 1
    ensures Count(after[victim], res) == Count(before[victim], res) - 1
    ensures Count(after[thief], res) == Count(before[thief], res) + 1
    ensures Total(after[victim]) + Total(after[thief]) == Total(before[victim]) + Total(before[thief])
  {
    RemovedCounts(before[victim], res, 1);
    AddedCounts(before[thief], res, 1);
  }

  /**
   * A steal of a resource the victim lacks (only a custom steal policy can
   * name one) leaves the victim as it was and still credits the thief: one
   * card more is in play than before.
   */
  lemma StealOfMissingCardCreatesOne(before: map<PlayerID, Hand>, after: map<PlayerID, Hand>, thief: PlayerID, victim: PlayerID, res: ResName)
    requires Stolen(before, after, thief, victim, res)
    requires Count(before[victim], res) < 1
    ensures after[victim] == before[victim]
    ensures Total(after[victim]) + Total(after[thief]) == Total(before[victim]) + Total(before[thief]) + 1
  {
    AddedCounts(before[thief], res, 1);
  }

  /**
   * The outcome of the steal step at the robber's tile with corners vs: no
   * victim only when no opponent there holds a card; otherwise an opponent
   * holding cards is robbed, and the default policy only names a card the
   * victim holds.
   */
  ghost predicate StealOutcome(owners: map<string, VertexOwner>, vs: seq<string>, current: PlayerID, policy: StealPolicy,
                               before: map<PlayerID, Hand>, after: map<PlayerID, Hand>, stolen: Option<(PlayerID, ResName)>) {
    match stolen
    case None =>
      after.Keys == before.Keys && (forall p :: p in before ==> after[p] == before[p])
      && forall p :: p in Opponents(owners, vs, current) && p in before ==> Total(before[p]) <= 0
    case Some((victim, res)) =>
      victim in Opponents(owners, vs, current) && victim in before && Total(before[victim]) > 0
      && Stolen(before, after, current, victim, res)
      && (policy.RandomSteal? ==> Count(before[victim], res) >= 1)
  }

  /** The events of a seven: the discards, the robber's new tile and the steal (victim and resource). */
  datatype SevenEvents = SevenEvents(discards: map<PlayerID, Hand>, movedTo: int, steal: Option<(PlayerID, ResName)>)

  /** The events of a dice phase. */
  datatype DiceEvents = SevenRolled(seven: SevenEvents) | Produced(roll: int, gains: map<PlayerID, Hand>)

  // ---------------------------------------------------------------------------
  // The engine
  // ---------------------------------------------------------------------------

  class TurnEngine {
    /** The player views by id, and the ids in the dict's order. */
    const players: map<PlayerID, PlayerView>
    const order: seq<PlayerID>
    var board: BoardSnapshot
    const chooseRobberTarget: (BoardSnapshot, PlayerID) --> int
    const chooseDiscard: DiscardPolicy
    const chooseSteal: StealPolicy

    function Views(): set<PlayerView> {
      set p | p in players :: players[p]
    }

    /** Each player's hand. */
    ghost function Hands(): map<PlayerID, Hand>
      reads Views()
    {
      map p | p in players :: players[p].resources
    }

    /**
     * Each view is filed under its own id (so no two ids share a view), every
     * owner on the board has a view, and the policies can run.
     */
    ghost predicate Valid()
      reads this, Views()
    {
      Shaped() && ViewsValid()
    }

    /** The part of Valid that the hands do not affect. */
    ghost predicate Shaped()
      reads this
    {
      (forall p :: p in players ==> players[p].playerId == p)
      && (forall i, j :: 0 <= i < j < |order| ==> order[i] != order[j])
      && (forall p :: p in players <==> p in order)
      && Ordered(board)
      && OwnedBy(board, players.Keys)
      && DiscardPolicyOk(chooseDiscard)
    }

    ghost predicate ViewsValid()
      reads Views()
    {
      forall p :: p in players ==> players[p].Valid()
    }

    constructor (players: map<PlayerID, PlayerView>, order: seq<PlayerID>, board: BoardSnapshot,
                 chooseRobberTarget: (BoardSnapshot, PlayerID) --> int, chooseDiscard: DiscardPolicy, chooseSteal: StealPolicy)
      ensures this.players == players && this.order == order && this.board == board
      ensures this.chooseRobberTarget == chooseRobberTarget && this.chooseDiscard == chooseDiscard && this.chooseSteal == chooseSteal
    {
      this.players := players;
      this.order := order;
      this.board := board;
      this.chooseRobberTarget := chooseRobberTarget;
      this.chooseDiscard := chooseDiscard;
      this.chooseSteal := chooseSteal;
    }

    /**
     * distribute_resources: every producing tile pays each owner of one of its
     * corners 1 card per settlement and 2 per city; the returned gains are
     * exactly what each player's hand grows by.
     */
    method DistributeResources(roll: int) returns (gained: map<PlayerID, Hand>)
      requires Valid()
      modifies Views()
      ensures Valid()
      ensures Recorded(gained, players.Keys)
      ensures forall p, r :: Count(GainsOf(gained, p), r) == Yield(board, board.tileOrder, roll, p, r)
      ensures forall p :: p in players ==> CreditedBy(old(players[p].resources), players[p].resources, GainsOf(gained, p))
    {
      gained := CollectGains(roll);
      ApplyGains(gained);
    }

    /** The first loop of distribute_resources: what every producing tile pays whom. */
    method CollectGains(roll: int) returns (gained: map<PlayerID, Hand>)
      requires Valid()
      ensures Recorded(gained, players.Keys)
      ensures forall p, r :: Count(GainsOf(gained, p), r) == Yield(board, board.tileOrder, roll, p, r)
    {
      gained := map[];
      assert board.tileOrder[..0] == [];
      for i := 0 to |board.tileOrder|
        invariant Recorded(gained, players.Keys)
        invariant forall p, r :: Count(GainsOf(gained, p), r) == Yield(board, board.tileOrder[..i], roll, p, r)
      {
        assert board.tileOrder[i] in board.tileOrder;
        var tile := board.tiles[board.tileOrder[i]];
        assert board.tileOrder[..i + 1] == board.tileOrder[..i] + [board.tileOrder[i]];
        if tile.number != roll || tile.hasRobber || board.robberTileId == Some(tile.tileId) || tile.resource.None? {
          forall p, r ensures Yield(board, board.tileOrder[..i + 1], roll, p, r) == Yield(board, board.tileOrder[..i], roll, p, r) {
            YieldSkipsTile(board, board.tileOrder[..i], roll, p, r, board.tileOrder[i]);
          }
          continue;
        }
        gained := GainCorners(board, tile.vertices, tile.resource.value, gained, players.Keys);
      }
      assert board.tileOrder[..|board.tileOrder|] == board.tileOrder;
    }

    /** The second loop of distribute_resources: each player's gains are added to the player's view. */
    method ApplyGains(gained: map<PlayerID, Hand>)
      requires Valid() && Recorded(gained, players.Keys)
      modifies Views()
      ensures Valid()
      ensures forall p :: p in players ==> CreditedBy(old(players[p].resources), players[p].resources, GainsOf(gained, p))
    {
      ghost var before := Hands();
      var rest := gained.Keys;
      while rest != {}
        invariant rest <= gained.Keys && Valid()
        invariant CreditedSoFar(before, gained, rest)
        decreases |rest|
      {
        var p :| p in rest;
        CreditNext(before, gained, rest, p);
        rest := rest - {p};
      }
      forall p | p in players
        ensures CreditedBy(old(players[p].resources), players[p].resources, GainsOf(gained, p))
      {
        assert before[p] == old(players[p].resources);
        if p !in gained {
          CreditedByNothing(before[p]);
        }
      }
    }

    /** The hands while the gains are credited: the players in rest and those without gains are as before. */
    ghost predicate CreditedSoFar(before: map<PlayerID, Hand>, gained: map<PlayerID, Hand>, rest: set<PlayerID>)
      reads Views()
    {
      before.Keys == players.Keys
      && (forall p :: p in players && (p in rest || p !in gained) ==> players[p].resources == before[p])
      && (forall p :: p in players && p in gained && p !in rest ==> CreditedBy(before[p], players[p].resources, gained[p]))
    }

    /** One turn of the crediting loop. */
    method CreditNext(ghost before: map<PlayerID, Hand>, gained: map<PlayerID, Hand>, ghost rest: set<PlayerID>, p: PlayerID)
      requires Valid() && Recorded(gained, players.Keys) && p in rest && rest <= gained.Keys
      requires CreditedSoFar(before, gained, rest)
      modifies Views()
      ensures Valid()
      ensures CreditedSoFar(before, gained, rest - {p})
    {
      CreditPlayer(p, gained[p]);
    }

    /** Player p's gains credited to the player's view. */
    method CreditPlayer(p: PlayerID, g: Hand)
      requires Valid() && p in players && Positive(g)
      modifies players[p]
      ensures Valid()
      ensures CreditedBy(old(players[p].resources), players[p].resources, g)
    {
      Credit(players[p], g);
    }

    /**
     * One player's discard of n cards (lines 185-188): the policy's discard,
     * then random cards for any shortfall in what it reports.
     */
    method Discard(v: PlayerView, n: int) returns (removed: Hand)
      requires v.Valid() && 0 <= n <= Total(v.resources) && DiscardPolicyOk(chooseDiscard)
      modifies v`resources
      ensures v.Valid()
      ensures Discarded(chooseDiscard, old(v.resources), n, v.resources, removed)
    {
      match chooseDiscard {
        case RandomDiscard =>
          removed := v.RemoveRandomCards(n);
        case CustomDiscard(choose) =>
          var picked := choose(v.resources, n);
          v.resources := picked.0;
          removed := picked.1;
      }
      removed := TopUp(v, removed, n);
    }

    /**
     * The shortfall rule of the discard (lines 186-188): when the reported cards
     * number fewer than n, random cards make up the difference and join the report.
     */
    method TopUp(v: PlayerView, reported: Hand, n: int) returns (removed: Hand)
      requires v.Valid() && NonNegative(reported)
      requires n - Total(reported) <= Total(v.resources) || Positive(v.resources)
      modifies v`resources
      ensures v.Valid()
      ensures n - Total(reported) <= 0 ==> v.resources == old(v.resources) && removed == reported
      ensures n - Total(reported) > 0 ==>
        && Total(v.resources) == Total(old(v.resources)) - Min(n - Total(reported), Total(old(v.resources)))
        && (forall r :: Count(v.resources, r) <= Count(old(v.resources), r))
        && (forall r :: Count(removed, r) == Max0(Count(reported, r) + Count(old(v.resources), r) - Count(v.resources, r)))
    {
      removed := reported;
      var removedTotal := SumValues(reported);
      if removedTotal < n {
        var extra := v.RemoveRandomCards(n - removedTotal);
        removed := Merged(reported, extra);
        assert forall r :: Count(extra, r) == Count(old(v.resources), r) - Count(v.resources, r);
      }
    }

    /** The discard loop of handle_seven: every player holding more than 7 cards discards half of them. */
    method DiscardHalves() returns (discards: map<PlayerID, Hand>)
      requires Valid()
      modifies Views()
      ensures Valid()
      ensures DiscardedAll(chooseDiscard, old(Hands()), Hands(), discards)
    {
      ghost var before := Hands();
      discards := map[];
      ghost var done: set<PlayerID> := {};
      for i := 0 to |order|
        invariant Valid()
        invariant forall p :: p in done <==> p in order[..i]
        invariant DiscardedSoFar(chooseDiscard, before, done, discards, Hands())
      {
        var pid := order[i];
        assert order[..i + 1] == order[..i] + [pid];
        assert pid !in done && pid in players;
        discards := DiscardStep(before, done, discards, pid);
        done := done + {pid};
      }
      assert order[..|order|] == order;
      assert done == players.Keys;
    }

    /** One round of the discard loop: player pid discards half when holding more than 7 cards. */
    method DiscardStep(ghost before: map<PlayerID, Hand>, ghost done: set<PlayerID>, discards0: map<PlayerID, Hand>, pid: PlayerID)
      returns (discards: map<PlayerID, Hand>)
      requires Valid() && pid in players && pid !in done
      requires DiscardedSoFar(chooseDiscard, before, done, discards0, Hands())
      modifies players[pid]
      ensures Valid() && DiscardedSoFar(chooseDiscard, before, done + {pid}, discards, Hands())
    {
      discards := discards0;
      var total := players[pid].TotalCards();
      if total > 7 {
        discards := DiscardHalf(before, done, discards0, pid, total);
      } else {
        KeptUnder(chooseDiscard, before, done, discards0, Hands(), pid);
      }
    }

    /** Player pid, holding total > 7 cards, discards half of them and the discard is recorded. */
    method DiscardHalf(ghost before: map<PlayerID, Hand>, ghost done: set<PlayerID>, discards0: map<PlayerID, Hand>,
                       pid: PlayerID, total: int)
      returns (discards: map<PlayerID, Hand>)
      requires Valid() && pid in players && pid !in done
      requires total == Total(players[pid].resources) && total > 7
      requires DiscardedSoFar(chooseDiscard, before, done, discards0, Hands())
      modifies players[pid]
      ensures Valid() && DiscardedSoFar(chooseDiscard, before, done + {pid}, discards, Hands())
    {
      ghost var hands0 := Hands();
      var removed := DiscardPlayer(pid, total / 2);
      discards := discards0[pid := removed];
      DiscardedOneMore(chooseDiscard, before, done, discards0, hands0, pid, players[pid].resources, removed);
    }

    /** Player pid's discard of n cards, seen from the engine: no other player's hand changes. */
    method DiscardPlayer(pid: PlayerID, n: int) returns (removed: Hand)
      requires Valid() && pid in players && 0 <= n <= Total(players[pid].resources)
      modifies players[pid]
      ensures Valid() && Hands() == old(Hands())[pid := players[pid].resources]
      ensures Discarded(chooseDiscard, old(players[pid].resources), n, players[pid].resources, removed)
    {
      var v := players[pid];
      removed := Discard(v, n);
      forall p | p in players && p != pid ensures players[p] != v {
        assert players[p].playerId == p;
      }
    }

    /** The robber's move (lines 191-211); a target that is not a tile raises KeyError after the old tile is cleared. */
    method MoveRobber(target: int) returns (ok: bool)
      requires Valid()
      modifies this`board
      ensures Valid()
      ensures ok <==> target in old(board).tiles
      ensures ok ==> RobberMoved(old(board), target, board)
      ensures !ok ==> board == old(board).(tiles := Cleared(old(board)))
    {
      if board.robberTileId.Some? && board.robberTileId.value in board.tiles {
        var oldTile := board.tiles[board.robberTileId.value];
        board := board.(tiles := board.tiles[board.robberTileId.value := oldTile.(hasRobber := false)]);
      }
      if target !in board.tiles {
        return false;
      }
      var newTile := board.tiles[target];
      board := board.(tiles := board.tiles[target := newTile.(hasRobber := true)], robberTileId := Some(target));
      ok := true;
    }

    /**
     * The steal (lines 213-230): the opponents at the corners vs who hold cards
     * are the candidates; the default victim policy picks one of them, if any,
     * and the steal policy names the resource, a random card when it names none.
     */
    method Steal(current: PlayerID, vs: seq<string>) returns (stolen: Option<(PlayerID, ResName)>)
      requires Valid() && current in players
      modifies Views()
      ensures Valid()
      ensures StealOutcome(board.vertexOwners, vs, current, chooseSteal, old(Hands()), Hands(), stolen)
    {
      var adjacent := AdjacentOpponents(current, vs);
      var candidates := CardHolders(adjacent);
      if candidates == {} {
        return None;
      }
      var victim :| victim in candidates;
      var res := StealFrom(current, victim);
      stolen := Some((victim, res));
    }

    /** The steal from a chosen victim: the resource is picked, then the card moves. */
    method StealFrom(thief: PlayerID, victim: PlayerID) returns (res: ResName)
      requires Valid() && thief in players && victim in players && thief != victim
      requires Total(players[victim].resources) > 0
      modifies players[thief], players[victim]
      ensures Valid()
      ensures Stolen(old(Hands()), Hands(), thief, victim, res)
      ensures chooseSteal.RandomSteal? ==> Count(old(players[victim].resources), res) >= 1
    {
      res := PickStealResource(players[victim].resources);
      TakeCard(thief, victim, res);
    }

    /** The adjacent set of handle_seven: the owners other than the current player at the corners vs. */
    method AdjacentOpponents(current: PlayerID, vs: seq<string>) returns (adjacent: set<PlayerID>)
      requires Valid()
      ensures adjacent == Opponents(board.vertexOwners, vs, current) && adjacent <= players.Keys
    {
      var owners := board.vertexOwners;
      adjacent := {};
      assert vs[..0] == [];
      for j := 0 to |vs|
        invariant adjacent == Opponents(owners, vs[..j], current)
      {
        assert vs[..j + 1] == vs[..j] + [vs[j]];
        var o := OwnerAt(owners, vs[j]);
        if o.owner.Some? && o.owner.value != "" && o.owner.value != current {
          adjacent := adjacent + {o.owner.value};
        }
      }
      assert vs[..|vs|] == vs;
      OpponentsAmong(board, players.Keys, vs, current);
    }

    /**
     * The resource to steal from a hand holding cards: what the steal policy
     * names, or a random card when it names none (or names the empty string).
     * The default policy draws a card the hand holds.
     */
    method PickStealResource(hand: Hand) returns (res: ResName)
      requires NonNegative(hand) && Total(hand) > 0
      ensures chooseSteal.RandomSteal? ==> Count(hand, res) >= 1
      ensures chooseSteal.CustomSteal? ==>
        if chooseSteal.choose(hand).Some? && chooseSteal.choose(hand).value != "" then res == chooseSteal.choose(hand).value
        else Count(hand, res) >= 1
    {
      TotalNonNegative(hand);
      var named: Option<ResName>;
      match chooseSteal {
        case RandomSteal =>
          var r :| r in hand && hand[r] > 0;
          named := Some(r);
        case CustomSteal(choose) =>
          named := choose(hand);
      }
      if named.Some? && named.value != "" {
        res := named.value;
      } else {
        res :| res in hand && hand[res] > 0;
      }
    }

    /** victim.remove(res, 1) followed by thief.add(res, 1). */
    method TakeCard(thief: PlayerID, victim: PlayerID, res: ResName)
      requires Valid() && thief in players && victim in players && thief != victim
      modifies players[thief], players[victim]
      ensures Valid()
      ensures Stolen(old(Hands()), Hands(), thief, victim, res)
    {
      var _ := players[victim].Remove(res, 1);
      players[thief].Add(res, 1);
    }

    /** The candidates of the steal: the given players who hold at least one card. */
    method CardHolders(ids: set<PlayerID>) returns (holders: set<PlayerID>)
      requires Valid() && ids <= players.Keys
      ensures forall p :: p in holders <==> p in ids && Total(players[p].resources) > 0
    {
      holders := {};
      var rest := ids;
      while rest != {}
        invariant rest <= ids
        invariant forall p :: p in holders <==> p in ids - rest && Total(players[p].resources) > 0
        decreases |rest|
      {
        var p :| p in rest;
        var total := players[p].TotalCards();
        if total > 0 {
          holders := holders + {p};
        }
        rest := rest - {p};
      }
    }

    /**
     * handle_seven: the discards, the robber's move to the target the policy
     * chooses, and the steal at the target tile. A target that is not a tile
     * fails as the source's KeyError does, after the discards and with the old
     * robber tile already cleared.
     */
    method HandleSeven(current: PlayerID) returns (events: Result<SevenEvents>, ghost discards: map<PlayerID, Hand>, ghost discarded: map<PlayerID, Hand>)
      requires Valid() && current in players && chooseRobberTarget.requires(board, current)
      modifies this`board, Views()
      ensures Valid()
      ensures DiscardedAll(chooseDiscard, old(Hands()), discarded, discards)
      ensures events.Success? ==> events.value.discards == discards
      ensures events.Success? <==> chooseRobberTarget(old(board), current) in old(board).tiles
      ensures events.Success? ==>
        var target := chooseRobberTarget(old(board), current);
        events.value.movedTo == target
        && RobberMoved(old(board), target, board)
        && StealOutcome(board.vertexOwners, board.tiles[target].vertices, current, chooseSteal, discarded, Hands(), events.value.steal)
      ensures events.Failure? ==> board == old(board).(tiles := Cleared(old(board))) && Hands() == discarded
    {
      var ds := DiscardHalves();
      discards, discarded := ds, Hands();
      var target := chooseRobberTarget(board, current);
      var ok := MoveRobber(target);
      if !ok {
        return Failure("KeyError"), discards, discarded;
      }
      var newTile := board.tiles[target];
      var stolen := Steal(current, newTile.vertices);
      events := Success(SevenEvents(ds, target, stolen));
    }

    /**
     * dice_phase: a 7 runs the seven sequence (the discards, which take the
     * hands from before to discarded, then the robber's move and the steal,
     * which leaves them at after); any other roll pays out production and
     * leaves the board, and so the robber, as it was.
     */
    method DicePhase(current: PlayerID, roll: int)
      returns (events: Result<DiceEvents>, ghost before: map<PlayerID, Hand>, ghost discards: map<PlayerID, Hand>,
               ghost discarded: map<PlayerID, Hand>, ghost after: map<PlayerID, Hand>)
      requires Valid()
      requires roll == 7 ==> current in players && chooseRobberTarget.requires(board, current)
      modifies this`board, Views()
      ensures Valid()
      ensures before == old(Hands()) && after == Hands()
      ensures roll != 7 ==>
        board == old(board) && events.Success? && events.value.Produced? && events.value.roll == roll
        && (forall p, r :: Count(GainsOf(events.value.gains, p), r) == Yield(board, board.tileOrder, roll, p, r))
        && (forall p :: p in players ==> CreditedBy(old(players[p].resources), players[p].resources, GainsOf(events.value.gains, p)))
      ensures roll == 7 ==>
        var target := chooseRobberTarget(old(board), current);
        DiscardedAll(chooseDiscard, before, discarded, discards)
        && (events.Success? <==> target in old(board).tiles)
        && (events.Success? ==>
              events.value.SevenRolled? && events.value.seven.discards == discards
              && events.value.seven.movedTo == target && RobberMoved(old(board), target, board)
              && StealOutcome(board.vertexOwners, board.tiles[target].vertices, current, chooseSteal, discarded, after, events.value.seven.steal))
        && (events.Failure? ==> board == old(board).(tiles := Cleared(old(board))) && after == discarded)
    {
      before := Hands();
      if roll == 7 {
        var seven;
        seven, discards, discarded := HandleSeven(current);
        match seven {
          case Success(e) => events := Success(SevenRolled(e));
          case Failure(err) => events := Failure(err);
        }
      } else {
        discards, discarded := map[], Hands();
        var gains := DistributeResources(roll);
        events := Success(Produced(roll, gains));
      }
      after := Hands();
    }

    /** The inner loop of the crediting: add each count of g to v. */
    method Credit(v: PlayerView, g: Hand)
      requires v.Valid() && Positive(g)
      modifies v`resources
      ensures v.Valid()
      ensures CreditedBy(old(v.resources), v.resources, g)
    {
      var rest := g.Keys;
      ghost var done: Hand := map[];
      while rest != {}
        invariant rest <= g.Keys && v.Valid()
        invariant done.Keys == g.Keys - rest && forall r :: r in done ==> done[r] == g[r]
        invariant CreditedBy(old(v.resources), v.resources, done)
        decreases |rest|
      {
        var r :| r in rest;
        v.Add(r, g[r]);
        done := done[r := g[r]];
        rest := rest - {r};
      }
      assert done == g;
    }
  }
}
