/**
 * The game state of model/game.py: players and their ledgers, the turn state
 * machine with its snake-ordered setup rounds, game creation, and the initial
 * settlement and road placement with its rollback.
 */
module Game {
  import opened Wrappers
  import opened Enums
  import opened Board
  import opened Checks

  datatype GamePhase =
    | WaitingForPlayers
    | DeterminingOrder
    | FirstSettlementRound
    | SecondSettlementRound
    | MainGame
    | GameOver

  /** One entry of setup_placements: the player, the settlement corner and the road. */
  datatype Placement = Placement(playerId: PlayerId, vertex: VertexId, edge: EdgeId)

  /** Everything about a player that the game changes, as one value. */
  datatype PlayerState = PlayerState(
    resources: map<Resource, int>,
    victoryPoints: int,
    settlementsRemaining: int,
    citiesRemaining: int,
    roadsRemaining: int,
    hasLongestRoad: bool)

  /** Python's index normalisation: a negative index counts from the end. */
  function PyIndex(n: nat, i: int): (k: nat)
    requires -(n as int) <= i < n
    ensures k < n
    ensures i >= 0 ==> k == i
    ensures i < 0 ==> k == n + i
  {
    if i >= 0 then i else n + i
  }

  /**
   * Python's s[-n:]: the last n entries, the whole list when it is shorter,
   * and also the whole list when n is 0 (since -0 is 0).
   */
  function PySuffix<T>(s: seq<T>, n: nat): (r: seq<T>)
    ensures n == 0 ==> r == s
    ensures 0 < n ==> |r| == if n < |s| then n else |s|
    ensures r == s[|s| - |r|..]
  {
    if n == 0 || n >= |s| then s else s[|s| - n..]
  }

  /** has_resources on a count map: every entry of the cost is covered. */
  predicate Covers(counts: map<Resource, int>, cost: map<Resource, int>)
    requires cost.Keys <= counts.Keys
  {
    forall r :: r in cost ==> counts[r] >= cost[r]
  }

  /** The counts left after paying cost; kinds the cost does not name are kept. */
  function Spend(counts: map<Resource, int>, cost: map<Resource, int>): map<Resource, int> {
    map r | r in counts :: counts[r] - (if r in cost then cost[r] else 0)
  }

  // ---------------------------------------------------------------------------
  // Players
  // ---------------------------------------------------------------------------

  class Player {
    const id: PlayerId
    const name: string
    const colour: string
    const isCpu: bool
    var resources: map<Resource, int>
    var victoryPoints: int
    var settlementsRemaining: int
    var citiesRemaining: int
    var roadsRemaining: int
    var hasLongestRoad: bool

    /** A player holds a non-negative count of each of the five producing resources. */
    ghost predicate Valid()
      reads this`resources
    {
      resources.Keys == ProducingResources && forall r :: r in resources ==> resources[r] >= 0
    }

    /** Everything the game changes about this player. */
    function State(): PlayerState
      reads this
    {
      PlayerState(resources, victoryPoints, settlementsRemaining, citiesRemaining, roadsRemaining, hasLongestRoad)
    }

    /** A new player: no cards, no points, 5 settlements, 4 cities and 15 roads in hand. */
    constructor (id: PlayerId, name: string, colour: string, isCpu: bool)
      ensures this.id == id && this.name == name && this.colour == colour && this.isCpu == isCpu
      ensures State() == PlayerState(map r | r in ProducingResources :: 0, 0, 5, 4, 15, false)
      ensures Valid()
    {
      this.id := id;
      this.name := name;
      this.colour := colour;
      this.isCpu := isCpu;
      resources := map r | r in ProducingResources :: 0;
      victoryPoints := 0;
      settlementsRemaining := 5;
      citiesRemaining := 4;
      roadsRemaining := 15;
      hasLongestRoad := false;
    }

    /** add_resource: the count of one kind grows by amount; the kind must be held (Python would raise KeyError). */
    method AddResource(resource: Resource, amount: int)
      requires resource in resources
      modifies this`resources
      ensures resources == old(resources)[resource := old(resources)[resource] + amount]
    {
      resources := resources[resource := resources[resource] + amount];
    }

    /** remove_resource: succeeds and subtracts exactly when the player holds enough, else changes nothing. */
    method RemoveResource(resource: Resource, amount: int) returns (ok: bool)
      requires resource in resources
      modifies this`resources
      ensures ok <==> old(resources)[resource] >= amount
      ensures ok ==> resources == old(resources)[resource := old(resources)[resource] - amount]
      ensures !ok ==> resources == old(resources)
    {
      if resources[resource] >= amount {
        resources := resources[resource := resources[resource] - amount];
        ok := true;
      } else {
        ok := false;
      }
    }

    /** has_resources: every entry of the cost is covered. */
    predicate HasResources(cost: map<Resource, int>)
      reads this
      requires cost.Keys <= resources.Keys
    {
      Covers(resources, cost)
    }
  }

  /** A player can pay a cost exactly when paying it leaves no count negative. */
  lemma HasResourcesIffNoDebt(p: Player, cost: map<Resource, int>)
    requires p.Valid() && cost.Keys <= p.resources.Keys
    ensures p.HasResources(cost) <==> forall r :: r in p.resources ==> Spend(p.resources, cost)[r] >= 0
  {
    if forall r :: r in p.resources ==> Spend(p.resources, cost)[r] >= 0 {
      forall r | r in cost ensures p.resources[r] >= cost[r] {
        assert Spend(p.resources, cost)[r] == p.resources[r] - cost[r];
      }
    }
  }

  // ---------------------------------------------------------------------------
  // The game state and the turn state machine
  // ---------------------------------------------------------------------------

  /**
   * next_turn as a function of the phase, the index and the player count: forward
   * through the first round, backward through the second, round-robin afterwards.
   */
  function NextTurnState(phase: GamePhase, idx: int, n: int): (GamePhase, int)
    requires phase == FirstSettlementRound || phase == SecondSettlementRound || n > 0
  {
    match phase
    case FirstSettlementRound =>
      if idx + 1 >= n then (SecondSettlementRound, n - 1) else (FirstSettlementRound, idx + 1)
    case SecondSettlementRound =>
      if idx - 1 < 0 then (MainGame, 0) else (SecondSettlementRound, idx - 1)
    case _ => (phase, (idx + 1) % n)
  }

  /** The phase and index after k calls of next_turn from the start of the first round. */
  function TurnsFromSetup(n: int, k: nat): (GamePhase, int)
    requires n > 0
  {
    if k == 0 then (FirstSettlementRound, 0)
    else
      var s := TurnsFromSetup(n, k - 1);
      NextTurnState(s.0, s.1, n)
  }

  /**
   * Snake order: the first round visits 0..n-1, the second round n-1..0 (so the last
   * player places twice in a row), and the main game starts with index 0.
   */
  lemma {:induction false} SnakeOrder(n: int, k: nat)
    requires n > 0 && k <= 2 * n
    ensures TurnsFromSetup(n, k) ==
      if k < n then (FirstSettlementRound, k)
      else if k < 2 * n then (SecondSettlementRound, 2 * n - 1 - k)
      else (MainGame, 0)
  {
    if k > 0 {
      SnakeOrder(n, k - 1);
    }
  }

  /** In every later phase next_turn keeps the phase and moves to the next index modulo n. */
  lemma MainGameRoundRobin(phase: GamePhase, idx: int, n: int)
    requires n > 0 && phase != FirstSettlementRound && phase != SecondSettlementRound
    ensures NextTurnState(phase, idx, n).0 == phase
    ensures 0 <= NextTurnState(phase, idx, n).1 < n
    ensures 0 <= idx < n - 1 ==> NextTurnState(phase, idx, n).1 == idx + 1
    ensures idx == n - 1 ==> NextTurnState(phase, idx, n).1 == 0
  {
  }

  /** The index after k calls of next_turn in the main game starting from index 0. */
  function MainTurns(n: int, k: nat): int
    requires n > 0
  {
    if k == 0 then 0 else NextTurnState(MainGame, MainTurns(n, k - 1), n).1
  }

  /** The first n main-game turns go to indices 0, 1, .., n-1 in order. */
  lemma {:induction false} MainTurnsInOrder(n: int, k: nat)
    requires n > 0
    ensures 0 <= MainTurns(n, k) < n
    ensures k < n ==> MainTurns(n, k) == k
  {
    if k > 0 {
      MainTurnsInOrder(n, k - 1);
      MainGameRoundRobin(MainGame, MainTurns(n, k - 1), n);
    }
  }

  /** The main-game order repeats with period n: everyone plays once in every n turns. */
  lemma {:induction false} MainTurnsPeriodic(n: int, k: nat)
    requires n > 0
    ensures MainTurns(n, k + n) == MainTurns(n, k)
  {
    if k == 0 {
      MainTurnsInOrder(n, n - 1);
      MainGameRoundRobin(MainGame, n - 1, n);
    } else {
      MainTurnsPeriodic(n, k - 1);
      assert MainTurns(n, k + n) == NextTurnState(MainGame, MainTurns(n, k - 1 + n), n).1;
    }
  }

  class GameState {
    var board: BoardGraph
    const players: seq<Player>
    var currentPhase: GamePhase
    var turnOrder: seq<PlayerId>
    var currentPlayerIdx: int
    var setupPlacements: seq<Placement>
    var lastDiceTotal: Option<int>
    var robberHexId: HexId

    /**
     * A consistent game: a well-formed board whose cities all have owners, and
     * distinct players whose ids are their positions in the player list.
     */
    ghost predicate Valid()
      reads this`board
    {
      && WellFormed(board) && CitiesOwned(board)
      && (forall i :: 0 <= i < |players| ==> players[i].id == i)
      && (forall i, j :: 0 <= i < j < |players| ==> players[i] != players[j])
    }

    /** Every player holds a non-negative count of each producing resource. */
    ghost predicate HoldingsValid()
      reads players
    {
      forall i :: 0 <= i < |players| ==> players[i].Valid()
    }

    constructor (board: BoardGraph, players: seq<Player>, phase: GamePhase)
      ensures this.board == board && this.players == players && currentPhase == phase
      ensures turnOrder == [] && currentPlayerIdx == 0 && setupPlacements == []
      ensures lastDiceTotal == None && robberHexId == 11
    {
      this.board := board;
      this.players := players;
      currentPhase := phase;
      turnOrder := [];
      currentPlayerIdx := 0;
      setupPlacements := [];
      lastDiceTotal := None;
      robberHexId := 11;
    }

    /** The lookups of get_current_player are in range (Python indices may be negative). */
    predicate HasCurrentPlayer()
      reads this`turnOrder, this`currentPlayerIdx
    {
      && -|turnOrder| <= currentPlayerIdx < |turnOrder|
      && -|players| <= turnOrder[PyIndex(|turnOrder|, currentPlayerIdx)] < |players|
    }

    /** The position in the player list of the player whose turn it is. */
    function CurrentIndex(): (i: nat)
      reads this`turnOrder, this`currentPlayerIdx
      requires HasCurrentPlayer()
      ensures i < |players|
    {
      PyIndex(|players|, turnOrder[PyIndex(|turnOrder|, currentPlayerIdx)])
    }

    /**
     * get_current_player: the player whose id is the current turn-order entry, when
     * ids are positions (as create_game numbers them).
     */
    function GetCurrentPlayer(): (p: Player)
      reads this`turnOrder, this`currentPlayerIdx
      requires HasCurrentPlayer()
      ensures p in players
      ensures (forall i :: 0 <= i < |players| ==> players[i].id == i) && 0 <= turnOrder[PyIndex(|turnOrder|, currentPlayerIdx)]
              ==> p.id == turnOrder[PyIndex(|turnOrder|, currentPlayerIdx)]
    {
      players[CurrentIndex()]
    }

    /** next_turn: advances the phase and index as NextTurnState says, and nothing else. */
    method NextTurn()
      requires currentPhase == FirstSettlementRound || currentPhase == SecondSettlementRound || |players| > 0
      modifies this`currentPhase, this`currentPlayerIdx
      ensures (currentPhase, currentPlayerIdx) == NextTurnState(old(currentPhase), old(currentPlayerIdx), |players|)
      ensures old(Valid()) ==> Valid()
    {
      if currentPhase == FirstSettlementRound {
        currentPlayerIdx := currentPlayerIdx + 1;
        if currentPlayerIdx >= |players| {
          currentPhase := SecondSettlementRound;
          currentPlayerIdx := |players| - 1;
        }
      } else if currentPhase == SecondSettlementRound {
        currentPlayerIdx := currentPlayerIdx - 1;
        if currentPlayerIdx < 0 {
          currentPhase := MainGame;
          currentPlayerIdx := 0;
        }
      } else {
        currentPlayerIdx := (currentPlayerIdx + 1) % |players|;
      }
    }
  }

  // ---------------------------------------------------------------------------
  // Game creation
  // ---------------------------------------------------------------------------

  /** The validation of create_game, in its order; a CPU-flag list is checked only when non-empty. */
  function CreateGameCheck(names: seq<string>, colours: seq<string>, cpu: Option<seq<bool>>): (r: (bool, string))
    ensures r.0 <==> 3 <= |names| <= 4 && |colours| == |names| && (cpu.None? || cpu.value == [] || |cpu.value| == |names|)
    ensures !(3 <= |names| <= 4) ==> r == (false, "Catan requires 3-4 players")
  {
    FirstFailure3(
      (3 <= |names| <= 4, "Catan requires 3-4 players"),
      (|names| == |colours|, "The number of colours doesn't match the number of players"),
      (cpu.None? || cpu.value == [] || |cpu.value| == |names|, "cpu_players list must match player count"),
      "");
    FirstFailure([
      (3 <= |names| <= 4, "Catan requires 3-4 players"),
      (|names| == |colours|, "The number of colours doesn't match the number of players"),
      (cpu.None? || cpu.value == [] || |cpu.value| == |names|, "cpu_players list must match player count")],
      "")
  }

  /** Whether player i is CPU-controlled: its flag, or false when no flags were given. */
  function CpuFlag(cpu: Option<seq<bool>>, i: nat): bool
    requires cpu.Some? && cpu.value != [] ==> i < |cpu.value|
  {
    if cpu.Some? && cpu.value != [] then cpu.value[i] else false
  }

  /**
   * create_game: rejects as CreateGameCheck says; otherwise a new game in the
   * turn-order phase whose players are numbered 0.. in the order given.
   */
  method CreateGame(names: seq<string>, colours: seq<string>, cpu: Option<seq<bool>>, board: BoardGraph)
    returns (r: Result<GameState>)
    requires WellFormed(board) && CitiesOwned(board)
    ensures r.Failure? <==> !CreateGameCheck(names, colours, cpu).0
    ensures r.Failure? ==> r.error == CreateGameCheck(names, colours, cpu).1
    ensures r.Success? ==>
      var g := r.value;
      && fresh(g) && g.Valid() && g.board == board && g.currentPhase == DeterminingOrder
      && g.turnOrder == [] && g.currentPlayerIdx == 0 && g.setupPlacements == [] && g.robberHexId == 11
      && |g.players| == |names|
      && forall i :: 0 <= i < |names| ==>
           fresh(g.players[i]) && g.players[i].name == names[i] && g.players[i].colour == colours[i]
           && g.players[i].isCpu == CpuFlag(cpu, i)
           && g.players[i].State() == PlayerState(map r | r in ProducingResources :: 0, 0, 5, 4, 15, false)
  {
    var check := CreateGameCheck(names, colours, cpu);
    if !check.0 {
      return Failure(check.1);
    }
    var players: seq<Player> := [];
    var i := 0;
    while i < |names|
      invariant 0 <= i <= |names| && |players| == i
      invariant forall j :: 0 <= j < i ==>
        fresh(players[j]) && players[j].id == j && players[j].Valid()
        && players[j].name == names[j] && players[j].colour == colours[j] && players[j].isCpu == CpuFlag(cpu, j)
        && players[j].State() == PlayerState(map r | r in ProducingResources :: 0, 0, 5, 4, 15, false)
      invariant forall j, k :: 0 <= j < k < i ==> players[j] != players[k]
    {
      var p := new Player(i, names[i], colours[i], CpuFlag(cpu, i));
      players := players + [p];
      i := i + 1;
    }
    var g := new GameState(board, players, DeterminingOrder);
    return Success(g);
  }

  // ---------------------------------------------------------------------------
  // Initial placement
  // ---------------------------------------------------------------------------

  /**
   * can_place_initial_settlement: the corner must exist, be empty and satisfy the
   * distance rule; no road is needed.
   */
  function CanPlaceInitialSettlement(b: BoardGraph, v: VertexId): (bool, string)
    requires WellFormed(b)
  {
    if v !in b.vertices then (false, "The vertex ID is invalid")
    else if b.vertices[v].owner.Some? then (false, "The vertex you are trying to access is already occupied")
    else if !NeighboursFree(b, v) then (false, "The vertex you want to build in is too close to another settlement (distance rule)")
    else (true, "Valid placement")
  }

  /** The initial-settlement checks run in this order and the first failure's reason is reported. */
  lemma InitialSettlementCheckOrder(b: BoardGraph, v: VertexId)
    requires WellFormed(b)
    ensures CanPlaceInitialSettlement(b, v) == FirstFailure([
      (v in b.vertices, "The vertex ID is invalid"),
      (v !in b.vertices || b.vertices[v].owner.None?, "The vertex you are trying to access is already occupied"),
      (v !in b.vertices || NeighboursFree(b, v), "The vertex you want to build in is too close to another settlement (distance rule)")],
      "Valid placement")
  {
    FirstFailure3(
      (v in b.vertices, "The vertex ID is invalid"),
      (v !in b.vertices || b.vertices[v].owner.None?, "The vertex you are trying to access is already occupied"),
      (v !in b.vertices || NeighboursFree(b, v), "The vertex you want to build in is too close to another settlement (distance rule)"),
      "Valid placement");
  }

  /**
   * An initial settlement is accepted exactly on an existing empty corner no road of
   * which leads to an occupied corner.
   */
  lemma InitialSettlementAccepted(b: BoardGraph, v: VertexId)
    requires WellFormed(b)
    ensures CanPlaceInitialSettlement(b, v).0 <==>
      v in b.vertices && b.vertices[v].owner.None?
      && forall e :: e in b.edges && (b.edges[e].v1 == v || b.edges[e].v2 == v) ==> b.vertices[OtherEnd(b, e, v)].owner.None?
  {
    if v in b.vertices {
      NeighboursFreeIffNoRoadToOwned(b, v);
    }
  }

  /** can_place_initial_road: the road must exist, be free and end at the given corner. */
  function CanPlaceInitialRoad(b: BoardGraph, v: VertexId, e: EdgeId): (bool, string) {
    if e !in b.edges then (false, "The edge ID is invalid")
    else if b.edges[e].owner.Some? then (false, "This edge already has a road built on it")
    else if v != b.edges[e].v1 && v != b.edges[e].v2 then (false, "The road must connect to your settlement")
    else (true, "Valid placement")
  }

  /** The initial-road checks run in this order and the first failure's reason is reported. */
  lemma InitialRoadCheckOrder(b: BoardGraph, v: VertexId, e: EdgeId)
    ensures CanPlaceInitialRoad(b, v, e) == FirstFailure([
      (e in b.edges, "The edge ID is invalid"),
      (e !in b.edges || b.edges[e].owner.None?, "This edge already has a road built on it"),
      (e !in b.edges || v == b.edges[e].v1 || v == b.edges[e].v2, "The road must connect to your settlement")],
      "Valid placement")
  {
    FirstFailure3(
      (e in b.edges, "The edge ID is invalid"),
      (e !in b.edges || b.edges[e].owner.None?, "This edge already has a road built on it"),
      (e !in b.edges || v == b.edges[e].v1 || v == b.edges[e].v2, "The road must connect to your settlement"),
      "Valid placement");
  }

  /** An accepted initial road leads away from the settlement corner to another corner of the board. */
  lemma InitialRoadLeadsAway(b: BoardGraph, v: VertexId, e: EdgeId)
    requires WellFormed(b) && CanPlaceInitialRoad(b, v, e).0
    ensures v in b.vertices && e in b.vertices[v].edgeIds
    ensures OtherEnd(b, e, v) in Neighbors(b, v)
  {
    var w := OtherEnd(b, e, v);
    NeighborsIffRoad(b, v, w);
  }

  /** The phases in which initial settlements may be placed. */
  predicate InSetupRound(phase: GamePhase) {
    phase == FirstSettlementRound || phase == SecondSettlementRound
  }

  /** A player's state after placing a settlement from hand: one fewer in hand, one more point. */
  function SettlementPlaced(s: PlayerState): PlayerState {
    s.(settlementsRemaining := s.settlementsRemaining - 1, victoryPoints := s.victoryPoints + 1)
  }

  /** A player's state after placing a road from hand. */
  function RoadPlaced(s: PlayerState): PlayerState {
    s.(roadsRemaining := s.roadsRemaining - 1)
  }

  /** The player whose turn it is, as a set for frames; empty outside the setup rounds. */
  function SetupPlayer(g: GameState): set<Player>
    reads g`currentPhase, g`turnOrder, g`currentPlayerIdx
    requires InSetupRound(g.currentPhase) ==> g.HasCurrentPlayer()
  {
    if InSetupRound(g.currentPhase) then {g.GetCurrentPlayer()} else {}
  }

  /**
   * place_initial_settlement: in a setup round, when the corner is acceptable, the
   * current player gets a settlement there, one fewer in hand and one more point;
   * otherwise nothing changes. No other player is touched.
   */
  method PlaceInitialSettlement(g: GameState, v: VertexId) returns (ok: bool)
    requires g.Valid()
    requires InSetupRound(g.currentPhase) ==> g.HasCurrentPlayer()
    modifies g`board, SetupPlayer(g)`settlementsRemaining, SetupPlayer(g)`victoryPoints
    ensures g.Valid()
    ensures ok <==> InSetupRound(g.currentPhase) && CanPlaceInitialSettlement(old(g.board), v).0
    ensures ok ==> g.board == WithStructure(old(g.board), v, Some(g.CurrentIndex()), false)
    ensures ok ==> g.GetCurrentPlayer().State() == SettlementPlaced(old(g.GetCurrentPlayer().State()))
    ensures !ok ==> unchanged(g) && unchanged(SetupPlayer(g))
  {
    if !InSetupRound(g.currentPhase) {
      return false;
    }
    var p := g.GetCurrentPlayer();
    var check := CanPlaceInitialSettlement(g.board, v);
    if !check.0 {
      return false;
    }
    g.board := WithStructure(g.board, v, Some(p.id), false);
    SameLayoutWellFormed(old(g.board), g.board);
    p.settlementsRemaining := p.settlementsRemaining - 1;
    p.victoryPoints := p.victoryPoints + 1;
    ok := true;
  }

  /**
   * place_initial_road: when the road is acceptable the current player owns it, has
   * one fewer road in hand, and the placement is recorded; otherwise nothing changes.
   */
  method PlaceInitialRoad(g: GameState, v: VertexId, e: EdgeId) returns (ok: bool)
    requires g.Valid() && g.HasCurrentPlayer()
    modifies g`board, g`setupPlacements, g.GetCurrentPlayer()`roadsRemaining
    ensures g.Valid()
    ensures ok <==> CanPlaceInitialRoad(old(g.board), v, e).0
    ensures ok ==> g.board == WithRoad(old(g.board), e, Some(g.CurrentIndex()))
    ensures ok ==> g.setupPlacements == old(g.setupPlacements) + [Placement(g.CurrentIndex(), v, e)]
    ensures ok ==> g.GetCurrentPlayer().State() == RoadPlaced(old(g.GetCurrentPlayer().State()))
    ensures !ok ==> unchanged(g) && unchanged(g.GetCurrentPlayer())
  {
    var p := g.GetCurrentPlayer();
    var check := CanPlaceInitialRoad(g.board, v, e);
    if !check.0 {
      return false;
    }
    g.board := WithRoad(g.board, e, Some(p.id));
    SameLayoutWellFormed(old(g.board), g.board);
    p.roadsRemaining := p.roadsRemaining - 1;
    g.setupPlacements := g.setupPlacements + [Placement(p.id, v, e)];
    ok := true;
  }

  /** The take-back of complete_initial_placement: corner v is emptied and the player's settlement returned. */
  method TakeBackSettlement(g: GameState, v: VertexId, ghost b0: BoardGraph, ghost s0: PlayerState)
    requires g.Valid() && g.HasCurrentPlayer()
    requires WellFormed(b0) && CitiesOwned(b0) && v in b0.vertices && b0.vertices[v].owner.None? && !b0.vertices[v].isCity
    requires g.board == WithStructure(b0, v, Some(g.CurrentIndex()), false)
    requires g.GetCurrentPlayer().State() == SettlementPlaced(s0)
    modifies g`board, g.GetCurrentPlayer()`settlementsRemaining, g.GetCurrentPlayer()`victoryPoints
    ensures g.board == b0 && g.GetCurrentPlayer().State() == s0
  {
    var p := g.GetCurrentPlayer();
    g.board := WithStructure(g.board, v, None, false);
    assert g.board.vertices == b0.vertices;
    p.settlementsRemaining := p.settlementsRemaining + 1;
    p.victoryPoints := p.victoryPoints - 1;
  }

  /**
   * The road half of complete_initial_placement, entered just after the current
   * player's settlement went onto corner v of board b0 (and their state went from
   * s0 to SettlementPlaced(s0)): either the road is placed, or the settlement is
   * taken back so that board and player are as in b0 and s0.
   */
  method PlaceRoadOrTakeBack(g: GameState, v: VertexId, e: EdgeId, ghost b0: BoardGraph, ghost s0: PlayerState)
    returns (ok: bool)
    requires g.Valid() && g.HasCurrentPlayer()
    requires WellFormed(b0) && CitiesOwned(b0) && v in b0.vertices && b0.vertices[v].owner.None? && !b0.vertices[v].isCity
    requires g.board == WithStructure(b0, v, Some(g.CurrentIndex()), false)
    requires g.GetCurrentPlayer().State() == SettlementPlaced(s0)
    modifies g`board, g`setupPlacements, g.GetCurrentPlayer()`settlementsRemaining, g.GetCurrentPlayer()`victoryPoints,
      g.GetCurrentPlayer()`roadsRemaining
    ensures g.Valid()
    ensures ok <==> CanPlaceInitialRoad(b0, v, e).0
    ensures ok ==> g.board == WithRoad(old(g.board), e, Some(g.CurrentIndex()))
    ensures ok ==> g.setupPlacements == old(g.setupPlacements) + [Placement(g.CurrentIndex(), v, e)]
    ensures ok ==> g.GetCurrentPlayer().State() == RoadPlaced(SettlementPlaced(s0))
    ensures !ok ==> g.board == b0 && g.setupPlacements == old(g.setupPlacements) && g.GetCurrentPlayer().State() == s0
  {
    assert g.board.edges == b0.edges;
    assert CanPlaceInitialRoad(g.board, v, e) == CanPlaceInitialRoad(b0, v, e);
    ok := PlaceInitialRoad(g, v, e);
    if !ok {
      TakeBackSettlement(g, v, b0, s0);
    }
  }

  /**
   * complete_initial_placement: settlement and road together or neither. When the
   * road is refused the settlement is taken back, leaving the game and every player
   * exactly as they were; when both succeed the turn advances once.
   */
  method CompleteInitialPlacement(g: GameState, v: VertexId, e: EdgeId) returns (ok: bool)
    requires g.Valid()
    requires InSetupRound(g.currentPhase) ==> g.HasCurrentPlayer()
    modifies g`board, g`setupPlacements, g`currentPhase, g`currentPlayerIdx
    modifies SetupPlayer(g)`settlementsRemaining, SetupPlayer(g)`victoryPoints, SetupPlayer(g)`roadsRemaining
    ensures g.Valid()
    ensures ok <==> InSetupRound(old(g.currentPhase)) && CanPlaceInitialSettlement(old(g.board), v).0
                    && CanPlaceInitialRoad(old(g.board), v, e).0
    ensures ok ==>
      && g.board == WithRoad(WithStructure(old(g.board), v, Some(old(g.CurrentIndex())), false), e, Some(old(g.CurrentIndex())))
      && g.setupPlacements == old(g.setupPlacements) + [Placement(old(g.CurrentIndex()), v, e)]
      && (g.currentPhase, g.currentPlayerIdx) == NextTurnState(old(g.currentPhase), old(g.currentPlayerIdx), |g.players|)
      && old(g.GetCurrentPlayer()).State() == RoadPlaced(SettlementPlaced(old(g.GetCurrentPlayer().State())))
    ensures !ok ==> unchanged(g) && unchanged(old(SetupPlayer(g)))
  {
    ok := PlaceInitialSettlement(g, v);
    if !ok {
      return;
    }
    ghost var p := g.GetCurrentPlayer();
    assert p == old(g.GetCurrentPlayer());
    ok := RoadThenAdvance(g, v, e, old(g.board), old(p.State()));
  }

  /**
   * The rest of complete_initial_placement once the settlement is down: the road
   * and the turn's advance, or the take-back that restores board b0 and state s0.
   */
  method RoadThenAdvance(g: GameState, v: VertexId, e: EdgeId, ghost b0: BoardGraph, ghost s0: PlayerState)
    returns (ok: bool)
    requires g.Valid() && g.HasCurrentPlayer()
    requires WellFormed(b0) && CitiesOwned(b0) && v in b0.vertices && b0.vertices[v].owner.None? && !b0.vertices[v].isCity
    requires g.board == WithStructure(b0, v, Some(g.CurrentIndex()), false)
    requires g.GetCurrentPlayer().State() == SettlementPlaced(s0)
    modifies g`board, g`setupPlacements, g`currentPhase, g`currentPlayerIdx
    modifies g.GetCurrentPlayer()`settlementsRemaining, g.GetCurrentPlayer()`victoryPoints, g.GetCurrentPlayer()`roadsRemaining
    ensures g.Valid()
    ensures ok <==> CanPlaceInitialRoad(b0, v, e).0
    ensures ok ==>
      && g.board == WithRoad(old(g.board), e, Some(old(g.CurrentIndex())))
      && g.setupPlacements == old(g.setupPlacements) + [Placement(old(g.CurrentIndex()), v, e)]
      && (g.currentPhase, g.currentPlayerIdx) == NextTurnState(old(g.currentPhase), old(g.currentPlayerIdx), |g.players|)
      && old(g.GetCurrentPlayer()).State() == RoadPlaced(SettlementPlaced(s0))
    ensures !ok ==>
      && g.board == b0 && g.setupPlacements == old(g.setupPlacements)
      && g.currentPhase == old(g.currentPhase) && g.currentPlayerIdx == old(g.currentPlayerIdx)
      && old(g.GetCurrentPlayer()).State() == s0
  {
    ghost var p := g.GetCurrentPlayer();
    ok := PlaceRoadOrTakeBack(g, v, e, b0, s0);
    if ok {
      g.NextTurn();
    }
  }

  // ---------------------------------------------------------------------------
  // Resources for the second settlements
  // ---------------------------------------------------------------------------

  /** The hexes among hs that yield resource r. */
  function HexesYielding(b: BoardGraph, hs: seq<HexId>, r: Resource): (k: nat)
    requires forall h :: h in hs ==> h in b.hexes
    ensures k <= |hs|
  {
    if hs == [] then 0
    else
      var h := hs[|hs| - 1];
      assert h in hs;
      HexesYielding(b, hs[..|hs| - 1], r) + (if b.hexes[h].resource == Some(r) then 1 else 0)
  }

  /** Whether a placement may be credited: its player index and corner exist, and no hex there yields the desert. */
  predicate Creditable(b: BoardGraph, n: nat, p: Placement) {
    && -(n as int) <= p.playerId < n && p.vertex in b.vertices
    && (forall h :: h in b.vertices[p.vertex].hexIds ==> h in b.hexes && b.hexes[h].resource != Some(Desert))
  }

  /** The cards of kind r that the placements ps hand to player i: one per adjacent hex yielding r. */
  function InitialYield(b: BoardGraph, n: nat, ps: seq<Placement>, i: nat, r: Resource): nat
    requires forall p :: p in ps ==> Creditable(b, n, p)
  {
    if ps == [] then 0
    else
      var p := ps[|ps| - 1];
      assert p in ps && Creditable(b, n, p);
      InitialYield(b, n, ps[..|ps| - 1], i, r)
      + (if PyIndex(n, p.playerId) == i then HexesYielding(b, b.vertices[p.vertex].hexIds, r) else 0)
  }

  /** A player none of whose placements is in ps gets nothing from them. */
  lemma {:induction false} InitialYieldNeedsPlacement(b: BoardGraph, n: nat, ps: seq<Placement>, i: nat, r: Resource)
    requires forall p :: p in ps ==> Creditable(b, n, p)
    requires forall p :: p in ps ==> -(n as int) <= p.playerId < n && PyIndex(n, p.playerId) != i
    ensures InitialYield(b, n, ps, i, r) == 0
  {
    if ps != [] {
      InitialYieldNeedsPlacement(b, n, ps[..|ps| - 1], i, r);
    }
  }

  /** The hexes around the corners of player i's placements in ps. */
  function HexesAround(b: BoardGraph, n: nat, ps: seq<Placement>, i: nat): nat
    requires forall p :: p in ps ==> Creditable(b, n, p)
  {
    if ps == [] then 0
    else
      var p := ps[|ps| - 1];
      assert p in ps && Creditable(b, n, p);
      HexesAround(b, n, ps[..|ps| - 1], i) + (if PyIndex(n, p.playerId) == i then |b.vertices[p.vertex].hexIds| else 0)
  }

  /** At most one card per hex around each of the player's placements. */
  lemma {:induction false} InitialYieldAtMostHexes(b: BoardGraph, n: nat, ps: seq<Placement>, i: nat, r: Resource)
    requires forall p :: p in ps ==> Creditable(b, n, p)
    ensures InitialYield(b, n, ps, i, r) <= HexesAround(b, n, ps, i)
  {
    if ps != [] {
      InitialYieldAtMostHexes(b, n, ps[..|ps| - 1], i, r);
    }
  }

  /** The counts after crediting player i with the yield of ps. */
  function Credited(counts: map<Resource, int>, b: BoardGraph, n: nat, ps: seq<Placement>, i: nat): (c: map<Resource, int>)
    requires forall p :: p in ps ==> Creditable(b, n, p)
    ensures c.Keys == counts.Keys
    ensures forall r :: r in counts ==> counts[r] <= c[r]
  {
    map r | r in counts :: counts[r] + InitialYield(b, n, ps, i, r)
  }

  /** Crediting one more placement adds its hexes' yield to its own player and nothing to anyone else. */
  lemma CreditedStep(counts: map<Resource, int>, b: BoardGraph, n: nat, ps: seq<Placement>, k: nat, i: nat)
    requires k < |ps| && forall p :: p in ps ==> Creditable(b, n, p)
    ensures Creditable(b, n, ps[k])
    ensures PyIndex(n, ps[k].playerId) != i ==> Credited(counts, b, n, ps[..k + 1], i) == Credited(counts, b, n, ps[..k], i)
    ensures PyIndex(n, ps[k].playerId) == i ==>
      var c := Credited(counts, b, n, ps[..k], i);
      Credited(counts, b, n, ps[..k + 1], i)
        == map r | r in c :: c[r] + HexesYielding(b, b.vertices[ps[k].vertex].hexIds, r)
  {
    assert ps[k] in ps;
    assert ps[..k + 1][..k] == ps[..k];
    assert ps[..k + 1][k] == ps[k];
  }

  /** The inner loop of distribute_initial_resources: one card of each yielding hex's kind. */
  method CreditHexes(player: Player, b: BoardGraph, hexIds: seq<HexId>)
    requires forall h :: h in hexIds ==> h in b.hexes
    requires forall h :: h in hexIds && b.hexes[h].resource.Some? ==> b.hexes[h].resource.value in player.resources
    modifies player`resources
    ensures player.resources == map r | r in old(player.resources) :: old(player.resources)[r] + HexesYielding(b, hexIds, r)
  {
    var j := 0;
    while j < |hexIds|
      invariant 0 <= j <= |hexIds|
      invariant player.resources.Keys == old(player.resources).Keys
      invariant forall r :: r in player.resources ==>
        player.resources[r] == old(player.resources)[r] + HexesYielding(b, hexIds[..j], r)
    {
      assert hexIds[..j + 1][..j] == hexIds[..j];
      var h := hexIds[j];
      assert h in hexIds;
      var tile := b.hexes[h];
      if tile.resource.Some? {
        player.AddResource(tile.resource.value, 1);
      }
      j := j + 1;
    }
    assert hexIds[..j] == hexIds;
  }

  /**
   * distribute_initial_resources: in the main game, each of the last n placements
   * (n the player count) gives its player one card per adjacent hex that yields
   * a resource; outside the main game nothing changes.
   */
  method DistributeInitialResources(g: GameState)
    requires g.Valid() && g.HoldingsValid()
    requires g.currentPhase == MainGame ==>
      forall p :: p in PySuffix(g.setupPlacements, |g.players|) ==> Creditable(g.board, |g.players|, p)
    modifies g.players`resources
    ensures g.HoldingsValid()
    ensures old(g.currentPhase) != MainGame ==> unchanged(g.players)
    ensures old(g.currentPhase) == MainGame ==>
      forall i :: 0 <= i < |g.players| ==>
        g.players[i].resources
          == Credited(old(g.players[i].resources), g.board, |g.players|, PySuffix(g.setupPlacements, |g.players|), i)
  {
    if g.currentPhase != MainGame {
      return;
    }
    var n := |g.players|;
    var second := PySuffix(g.setupPlacements, n);
    var k := 0;
    while k < |second|
      invariant 0 <= k <= |second|
      invariant forall i :: 0 <= i < n ==> g.players[i].Valid()
      invariant forall i :: 0 <= i < n ==>
        g.players[i].resources == Credited(old(g.players[i].resources), g.board, n, second[..k], i)
    {
      var pl := second[k];
      CreditedStep(map[], g.board, n, second, k, 0);
      var pi := PyIndex(n, pl.playerId);
      var player := g.players[pi];
      assert pl in second && Creditable(g.board, n, pl);
      assert player.Valid();
      forall h | h in g.board.vertices[pl.vertex].hexIds && g.board.hexes[h].resource.Some?
        ensures g.board.hexes[h].resource.value in player.resources
      {
        assert g.board.hexes[h].resource != Some(Desert);
        ProducingIffNotDesert(g.board.hexes[h].resource.value);
      }
      CreditHexes(player, g.board, g.board.vertices[pl.vertex].hexIds);
      forall i | 0 <= i < n
        ensures g.players[i].resources == Credited(old(g.players[i].resources), g.board, n, second[..k + 1], i)
      {
        CreditedStep(old(g.players[i].resources), g.board, n, second, k, i);
      }
      k := k + 1;
    }
    assert second[..k] == second;
  }
}
