# ColabCatan core in Dafny

This project models the rules core of ColabCatan, a Python implementation of the board game Catan for three or four players, and proves properties of it. The model covers:

- **Board.** The standard 54-corner adjacency table, the terrain pool, the number tokens and their pips, and the board helpers: other end of a road, neighbours, and the pips of a corner.
- **Building rules.** The rules for roads, settlements and cities, with their costs and the order in which the reasons for refusal are checked.
- **Building service.** Building with payment; the CPU's road and settlement building; the resource location map; corner scoring.
- **Pathfinding.** The Dijkstra search for the cheapest road route, and the breadth-first search of a player's road network.
- **Game state and setup.** The players; turn order in snake order; the initial placements, with the settlement taken back when the road is refused; the first distribution of resources.
- **Turn engine.** Production on a dice roll; the seven (discards, robber move, steal); and the adapter that runs the engine on copies of the game and copies the results back.
- **CPU player.** It generates candidate actions, scores them heuristically and picks the best through a heap.

How the source's constructs are modelled:

- Objects that the source changes in place are Dafny classes with `modifies` frames: `Game.Player`, `Game.GameState`, `TurnEngine.PlayerView`, `TurnEngine.TurnEngine`, `BuildingService.BuildingService`.
- The board, the engine's board snapshot and the CPU player's actions are datatype values. Methods assign a new value where the source updates them in place.
- Python dictionaries whose iteration order matters carry that order explicitly: the `vertexOrder`, `hexOrder` and `order` fields.
- Python's indexing conventions are written out: negative list indices (`PyIndex`), `s[-n:]` (`PySuffix`), `str`/`int` on ids (`Strings`), and list and string ordering in the heap (`LexLess`).

The dice, `random.choice` and the policies that turn-engine callers pass in are inputs. A random choice is a nondeterministic `:|` pick from exactly the values the source could draw. A policy is a datatype: either the default behaviour or a pure function supplied by the caller.

Each checker chain of the source returns `(ok, reason)`. The model states it as `Checks.FirstFailure` over the checks in source order, and a lemma per chain proves the order.

## Model

| member | source | states |
|---|---|---|
| Board.CatanVertexName | model/board.py:50-105 | a corner name has one or two characters and starts with an upper-case letter |
| Board.CatanVertexNameInjective | model/board.py:50-105 | distinct corner indices get distinct names, so the 54 keys of catan_graph are distinct |
| Board.CatanGraphLookup | model/board.py:50-105 | the entry of catan_graph for corner i is the neighbour row of the index-level table |
| Board.CatanGraphKeys | model/board.py:50-105 | every key of catan_graph names one of the 54 corners |
| Board.CatanGraphSize | model/board.py:50-105 | catan_graph has exactly 54 corners |
| Board.CatanGraphSymmetric | model/board.py:50-105 | w is listed as a neighbour of v exactly when v is listed for w |
| Board.CatanGraphDegree | model/board.py:50-105 | each corner lists two or three distinct neighbours and never itself |
| CatanLayout.CatanAdjacencySymmetric | model/board.py:50-105 | the index-level adjacency table behind catan_graph is symmetric |
| CatanLayout.CatanAdjacencyDegree | model/board.py:50-105 | the index-level table gives each corner two or three distinct neighbours, none of them itself |
| CatanLayout.CatanAdjacencyInRange | model/board.py:50-105 | every neighbour in the index-level table is one of the 54 corners |
| Board.ResourcePoolContents | model/board.py:108-128 | RESOURCE_POOL has 19 entries: four each of forest, pasture and field, three each of hill and mountain, one desert (a multiset count per terrain) |
| Board.BlockCounts | model/board.py:108-128 | a list made of the pool's six blocks holds each terrain as often as the pool's share says |
| Board.ChitsShape | model/board.py:130 | CHITS has one token per non-desert terrain, and each token is in 2..12 and never 7 |
| Board.Pip | model/board.py:201-204 | pip is at most 5, and is 0 exactly for a missing number, a number outside 2..12, or 7 |
| Board.PipCountsDiceOutcomes | model/board.py:201-204 | the pip count of every number other than 7 equals the number of ways two dice roll it |
| Board.PipSymmetric | model/board.py:201-204 | pip(n) == pip(14 - n) |
| Board.ChitsHavePips | model/board.py:130 | every token in CHITS carries at least one pip |
| Board.OtherEnd | model/board.py:193-195 | the result is an endpoint of road e, and it is the endpoint other than v when v is one of them |
| Board.OtherEndInvolution | model/board.py:193-195 | going along a road and back returns to the start |
| Board.OtherEndIsVertex | model/board.py:189-195 | every road listed at a corner exists and leads to a corner of the board |
| Board.Neighbors | model/board.py:197-199 | there is one neighbour per listed road, each a corner of the board other than v |
| Board.NeighborsIffRoad | model/board.py:197-199 | w is a neighbour of v exactly when some road joins them, so the relation is symmetric |
| Board.NeighboursFreeIffNoRoadToOwned | model/board.py:197-199 | "every neighbour is empty" is the same as "no road at v leads to an occupied corner" |
| Board.VertexPip | model/board.py:206-208 | the pips of a corner are at most 5 per adjacent hex |
| Board.SumPips | model/board.py:206-208 | the pips summed over some hexes are at most 5 per hex |
| Board.WithRoad | model/board.py:174-187 | assigning a road's owner keeps the layout: hexes, orders, keys and incidences |
| Board.WithStructure | model/board.py:174-187 | placing a structure on a corner keeps the layout |
| Board.SameLayoutWellFormed | model/board.py:174-187 | a board that differs only in who owns what is still well formed |
| Enums.ProducingIffNotDesert | model/enums.py:19-30 | players hold a resource kind exactly when it is not the desert |
| Checks.FirstFailure | rules/building_rules.py:41-78 | a check chain succeeds exactly when every check passes, and then returns the success message; otherwise it returns the reason of the first failing check, with all earlier checks passing |
| Checks.FirstFailureCons | rules/building_rules.py:41-78 | a check in front of the rest is reported if it fails; otherwise the rest decide |
| BuildingRules.CostsAreProducing | rules/building_rules.py:63 | the road, settlement and city costs name producing resources only |
| BuildingRules.RoadCheckOrder | rules/building_rules.py:41-78 | can_build_road is the chain: edge exists, free, lumber and brick held, a road in hand, connected at one end; each refusal carries the source's reason |
| BuildingRules.RoadAccepted | rules/building_rules.py:41-78 | an accepted road is a free edge; the player holds a lumber and a brick and has a road in hand; one end is connected to the player |
| BuildingRules.ConnectedToPlayerIffRoadToOwn | rules/building_rules.py:161-190 | a corner is connected to the player exactly when the player owns it, or one of the player's roads joins it to a corner the player owns |
| BuildingRules.ConnectedByRoadIffIncidentRoad | rules/building_rules.py:192-210 | a corner is road-connected exactly when one of the player's roads ends there |
| BuildingRules.DistanceRuleIffNoRoadToOccupied | rules/building_rules.py:212-232 | the distance rule holds exactly at an existing corner none of whose roads leads to an occupied corner |
| BuildingRules.SettlementCheckOrder | rules/building_rules.py:80-123 | can_build_settlement is the chain: corner exists, empty, distance rule, cost covered, a settlement in hand, road-connected; with the source's reasons |
| BuildingRules.SettlementAcceptedIsInitialPlaceable | rules/building_rules.py:80-123 | a settlement accepted in the main game would also pass the initial-placement check, and it is road-connected with a settlement in hand |
| BuildingRules.CityCheckOrder | rules/building_rules.py:125-159 | can_upgrade_to_city is the chain: corner exists, owned by the player, not yet a city, 2 grain and 3 ore held, a city in hand; with the source's reasons |
| BuildingService.RoadKeepsTally | services/building_service.py:66-79 | building a road on a free slot keeps roads in hand plus roads on the board, and the same for settlements, cities and points beyond those of buildings; every other player keeps their roads |
| BuildingService.SettlementKeepsTally | services/building_service.py:98-117 | building a settlement on an empty corner keeps the same tally: pieces in hand plus pieces on the board, and the points beyond one per settlement; every other player keeps their settlements |
| BuildingService.CityKeepsTally | services/building_service.py:136-150 | upgrading an own settlement keeps the tally: pieces in hand plus pieces on the board per kind, and the points beyond one per settlement and two per city |
| BuildingService.SpendCovered | services/building_service.py:66-79 | paying a cost the player covers leaves no count negative |
| BuildingService.RoadTwiceRefused | services/building_service.py:50-79 | once a road is built on a slot, building there again is refused with "Edge already has a road" |
| BuildingService.ScoringResource | services/building_service.py:249-253 | a hex counts for scoring only when it exists and has a resource other than the desert |
| BuildingService.ResourcesAt | services/building_service.py:248-253 | the keys of resource_counts are the distinct resources among the yielding hexes |
| BuildingService.HexCounts | services/building_service.py:249-262 | each yielding hex scores 1, plus 2 when its resource is preferred; the distinct resources never outnumber the yielding hexes, and there are none exactly when no hex yields |
| BuildingService.ScoreBounds | services/building_service.py:237-264 | a corner's score is at least one per yielding hex plus the diversity bonus and at most 5 per hex; a preference adds exactly 2 per preferred hex |
| BuildingService.InsertByScoreSorts | services/building_service.py:203 | inserting into a descending list keeps it descending and adds the entry once (a multiset) |
| BuildingService.SortByScoreSorts | services/building_service.py:203 | the sort is a permutation of its input and is in descending order of score |
| BuildingService.BuildableAccepted | services/building_service.py:213-235 | on a buildable corner, can_build_settlement checks only the cost and the settlements in hand, with their reasons |
| BuildingService.FindBuildableVertices | services/building_service.py:213-235 | the result is exactly the corners of the player's network that are empty and obey the distance rule, each listed once |
| BuildingService.ResourceMapLookup | services/building_service.py:294-308 | a valid resource map lists a corner under resource r exactly when r is not the desert and some hex of r touches the corner |
| BuildingService.CornersAt | services/building_service.py:287-292 | the corners of a list that touch a hex, in the list order |
| BuildingService.CornersAtSameLayout | services/building_service.py:266-292 | the corners at a hex depend only on the layout, not on who owns what |
| BuildingService.Wanted | services/building_service.py:266-292 | what the map holds hex by hex: exactly the hexes with a resource other than the desert, each with that resource and its corners in board order |
| BuildingService.LayoutKept | services/building_service.py:266-292 | a change of ownership that keeps cities owned keeps the board well formed and the resource map valid |
| BuildingService.SkipHex | services/building_service.py:279-280 | visiting a hex with no resource, or with the desert, leaves the partial map valid |
| BuildingService.AddHex | services/building_service.py:279-292 | visiting a resource hex files its corners under its resource and keeps the partial map valid |
| BuildingService.VisitHex | services/building_service.py:279-292 | one round of the outer loop extends the partial map to one more hex in board order |
| BuildingService.MapComplete | services/building_service.py:266-292 | once every hex is visited, the map is exactly the resource location map: the resources present, the hexes with corners, and each hex's corners in board order |
| BuildingService.ListedHex | services/building_service.py:266-292 | in the completed map, hex h is listed under r exactly when it yields r and has corners |
| BuildingService.CollectCorners | services/building_service.py:287-292 | the inner loop appends exactly the corners touching the hex, in board order, with no duplicates |
| BuildingService.KeepIn | services/building_service.py:320 | the comprehension keeps exactly the entries of the first list that occur in the second, in order |
| BuildingService.Concat | services/building_service.py:304-308 | joining the corner lists of the hexes filed under a resource gives exactly the corners of those lists |
| BuildingService.ScoreAll | services/building_service.py:197-200 | each corner is paired with its score, in order |
| BuildingService.BestFirst | services/building_service.py:203-209 | after sorting, the first entry is a corner of the list with the highest score |
| BuildingService.PickBest | services/building_service.py:325-335 | the scan returns None only for an empty list; otherwise it returns the first entry of maximal score |
| BuildingService.TopIsBestCandidate | services/building_service.py:310-335 | the corner picked is a buildable corner of the resource, and no such corner scores more |
| BuildingService.Pay | services/building_service.py:71-74 | paying a covered cost item by item subtracts exactly the cost |
| BuildingService.BuildingService.constructor | services/building_service.py:39-48 | the service wraps the given game and starts valid |
| BuildingService.BuildingService.BuildResourceMap | services/building_service.py:266-292 | after the build the map matches the board |
| BuildingService.BuildingService.GetVerticesWithResource | services/building_service.py:294-308 | the result is exactly the corners touching a hex of the resource, each once; it is empty for the desert |
| BuildingService.BuildingService.BuildRoad | services/building_service.py:50-79 | the result is ok exactly when can_build_road accepts. On success the road is the player's, lumber and brick are paid, one fewer road is in hand, and the success message is returned. On refusal the rules' reason is returned and nothing changes |
| BuildingService.BuildingService.BuildSettlement | services/building_service.py:81-117 | the result is ok exactly when can_build_settlement accepts. On success the corner holds the player's settlement, one each of lumber, brick, grain and wool is paid, a settlement leaves the hand and the player gains a point. On refusal the reason is returned and nothing changes |
| BuildingService.BuildingService.UpgradeToCity | services/building_service.py:119-150 | the result is ok exactly when can_upgrade_to_city accepts. On success the corner becomes a city, 2 grain and 3 ore are paid, a settlement returns to hand, a city leaves it and the player gains a point. On refusal nothing changes |
| BuildingService.BuildingService.FindBestSettlementForResource | services/building_service.py:310-335 | the result is None exactly when no buildable corner touches the resource; otherwise it is such a corner, and no such corner scores higher with the resource preferred |
| BuildingService.BuildingService.CpuBuildRoad | services/building_service.py:154-171 | without a planned road the reason "No valid road placement found" is returned and nothing changes; otherwise the planned road is built as build_road would build it |
| BuildingService.BuildingService.CpuBuildSettlement | services/building_service.py:173-211 | it refuses when nothing is buildable; otherwise it succeeds exactly when the player can pay and has a settlement in hand, building on a best-scored corner |
| BuildingService.BuildingService.TrySettlements | services/building_service.py:206-211 | the try loop succeeds exactly when the player can pay and has a settlement in hand, and then builds on the first corner of the list |
| BuildingService.BuildingService.SetBoard | services/building_service.py:76 | a change of ownership only keeps the service valid |
| BuildingService.TakeRoad | services/building_service.py:71-77 | the road cost is paid and a road leaves the hand |
| BuildingService.TakeSettlement | services/building_service.py:102-115 | the settlement cost is paid, a settlement leaves the hand and a point is gained |
| BuildingService.TakeCity | services/building_service.py:140-148 | the city cost is paid, a settlement returns to hand, a city leaves it and a point is gained |
| Walks.Built | search/pathfinding.py:138-147 | the roads still to build along a walk are free slots, and there are no more of them than roads walked |
| Walks.WalkToSnoc | search/pathfinding.py:130-149 | extending a walk by a usable road at its end moves it to the road's other end |
| Walks.WalkToInVertices | search/pathfinding.py:130-149 | every walk on a well-formed board stays on its corners |
| Walks.OwnWalkIsWalk | search/pathfinding.py:139-141 | a walk on the player's own roads is a walk of the search and builds nothing |
| Pathfinding.MinimalEntriesEqual | search/pathfinding.py:118 | two heap entries neither of which is below the other are equal, so heappop's choice is determined |
| Pathfinding.MinEntry | search/pathfinding.py:118 | heappop returns an entry of the heap that no other entry is below |
| Pathfinding.FrontierBound | search/pathfinding.py:117-149 | a walk from a start to an unsettled corner passes a heap entry that needs no more roads than the walk |
| Pathfinding.PoppedIsLowerBound | search/pathfinding.py:117-127 | the popped entry needs no more roads than any walk to an unsettled corner |
| Pathfinding.SettleKeepsFrontier | search/pathfinding.py:120-123 | settling the popped corner at its distance keeps the search invariant |
| Pathfinding.SkipKeepsFrontier | search/pathfinding.py:120-121 | dropping an entry of an already settled corner keeps the search invariant |
| Pathfinding.RelaxedMono | search/pathfinding.py:130-149 | relaxation survives adding entries, settling corners and dropping settled entries |
| Pathfinding.RelaxedSnoc | search/pathfinding.py:130-149 | relaxing one more road at the settled corner |
| Pathfinding.DijkstraShortestPath | search/pathfinding.py:90-151 | None only when no target is reachable. Otherwise the roads to build along a cheapest walk from some start to some target, with their count as the distance; no walk from any start to any target builds fewer roads |
| Pathfinding.ExhaustedUnreachable | search/pathfinding.py:151 | once the heap is empty, no target is reachable |
| Pathfinding.QueueStarts | search/pathfinding.py:114-115 | the initial heap has one entry per start, at distance 0 with no roads |
| Pathfinding.HitIsCheapest | search/pathfinding.py:126-127 | a target reached by the least entry of the heap is reached by a cheapest walk |
| Pathfinding.PopStep | search/pathfinding.py:117-149 | one round of the outer loop keeps the search invariant, and when it returns a target, the path is a cheapest walk |
| Pathfinding.Relax | search/pathfinding.py:130-149 | after relaxing the settled corner's roads the search invariant holds: every usable road from a settled corner to an unsettled one has a heap entry no dearer than the settled distance plus the road's cost |
| Pathfinding.RelaxEdge | search/pathfinding.py:131-149 | the old entries stay; a usable road to an unsettled corner leaves an entry there no dearer than the settled distance plus the road's cost (0 along the player's own road, 1 along a free slot) |
| Pathfinding.ClosedHoldsNetwork | search/pathfinding.py:184-223 | a set holding the player's buildings and closed under the player's roads holds the whole network |
| Pathfinding.ListOf | search/pathfinding.py:223 | list(s) holds every member of s exactly once |
| Pathfinding.SearchComplete | search/pathfinding.py:208-223 | when the deque is empty, the corners found are exactly the player's network |
| Pathfinding.GetPlayerConnectedVertices | search/pathfinding.py:184-223 | the result is exactly the corners of the player's network (buildings and everything reached along the player's roads), each once |
| Pathfinding.VisitNext | search/pathfinding.py:208-221 | one round of the outer loop keeps the found set witnessed and the deque within it |
| Pathfinding.OwnedCorners | search/pathfinding.py:202-205 | the search starts in its invariant: the found set holds all the player's buildings, each reached by a walk, and the deque lies within it |
| Pathfinding.ExpandFrom | search/pathfinding.py:211-221 | every road of the player at the current corner leads into the found set, the corners newly found join the deque, and nothing joins when nothing is found |
| Pathfinding.WitnessedAdd | search/pathfinding.py:211-221 | a corner reached by one more of the player's roads is reached by a walk from one of the player's buildings |
| Pathfinding.HexesWith | search/pathfinding.py:168-171 | the comprehension keeps exactly the hexes of the resource, in order |
| Pathfinding.FindVerticesWithResource | search/pathfinding.py:153-182 | the result is exactly the corners touching a hex of the resource, each once |
| Pathfinding.AddCornersOf | search/pathfinding.py:177-180 | appends each corner of the hex that is not yet listed, keeping the list free of duplicates |
| Pathfinding.ShortestPathToResource | search/pathfinding.py:35-67 | the search toward the corners of the resource: None only when none is reachable, otherwise a cheapest walk to one |
| Pathfinding.ShortestPathToVertex | search/pathfinding.py:69-88 | the search toward one corner: None only when it is unreachable, otherwise a cheapest walk to it |
| Pathfinding.FindAnyValidRoad | search/pathfinding.py:265-280 | the first free road at a start whose far end is empty; None exactly when there is none |
| Pathfinding.FindBestRoadPlacement | search/pathfinding.py:225-263 | a road is returned only for a player with a building, and it is a free road. With a target resource, or else a non-empty target corner, it is the first road to build on a cheapest walk from the network to the target, and None only when the target is unreachable or needs no new road. Without a target, it is an open road at the network, and None exactly when there is none |
| Strings.ShowNat | model/game.py:234-240 | str(n) is a non-empty string of decimal digits |
| Strings.ParseShowNat | engine/turn_adapter.py:109 | int(str(n)) == n |
| Strings.ShowNatInjective | engine/turn_adapter.py:67-69 | distinct natural ids render as distinct keys |
| Strings.ShowInt | engine/turn_adapter.py:67-69 | str(n) of any integer is a non-empty string |
| Strings.ShowIntInjective | engine/turn_adapter.py:67-69 | distinct integers render as distinct strings |
| Strings.CodesInjective | search/pathfinding.py:118 | strings with the same code points are equal |
| Strings.LexLessIrreflexive | search/pathfinding.py:118 | Python's list order is irreflexive |
| Strings.LexLessTransitive | search/pathfinding.py:118 | Python's list order is transitive |
| Strings.LexLessTotal | search/pathfinding.py:118 | any two different lists are ordered one way or the other |
| Game.PyIndex | model/game.py:141-142 | Python's index normalisation: a non-negative index is kept, and a negative one counts from the end |
| Game.PySuffix | model/game.py:550 | s[-n:] is the last n entries, the whole list when it is shorter, and also the whole list when n is 0 |
| Game.Player.constructor | model/game.py:43-69 | a new player holds 0 of each producing resource, has no points, and has 5 settlements, 4 cities and 15 roads in hand |
| Game.Player.AddResource | model/game.py:71-79 | the count of one kind grows by amount, and the rest is unchanged |
| Game.Player.RemoveResource | model/game.py:81-95 | the result is ok exactly when enough is held, and then the amount is subtracted; otherwise nothing changes |
| Game.HasResourcesIffNoDebt | model/game.py:97-107 | has_resources holds exactly when paying the cost leaves no count negative |
| Game.SnakeOrder | model/game.py:144-173 | from setup, the first n turns go to 0..n-1, the next n to n-1..0 (the last player places twice in a row), and then the main game starts at index 0 |
| Game.MainGameRoundRobin | model/game.py:171-173 | outside the setup rounds next_turn keeps the phase and moves to the next index modulo n |
| Game.MainTurnsInOrder | model/game.py:171-173 | the first n main-game turns go to 0, 1, .., n-1 |
| Game.MainTurnsPeriodic | model/game.py:171-173 | main-game turns repeat with period n |
| Game.GameState.constructor | model/game.py:111-132 | a new game has an empty turn order, index 0, no placements, no dice total and the robber on hex 11 |
| Game.GameState.CurrentIndex | model/game.py:134-142 | the current player's position is inside the player list |
| Game.GameState.GetCurrentPlayer | model/game.py:134-142 | the result is a player of the game; when players are numbered by position, it is the one whose id is the current turn-order entry |
| Game.GameState.NextTurn | model/game.py:144-173 | the phase and index become NextTurnState of the old ones (snake order during setup); nothing else changes |
| Game.CreateGameCheck | model/game.py:221-230 | the validation accepts exactly 3 or 4 names with as many colours, and CPU flags that are absent, empty or as many as the names; the player-count reason comes first |
| Game.CreateGame | model/game.py:194-257 | it fails exactly when the validation fails, with its reason. Otherwise it returns a fresh game in the turn-order phase whose players are numbered 0.. in order, with their names, colours and CPU flags |
| Game.InitialSettlementCheckOrder | model/game.py:326-363 | can_place_initial_settlement is the chain: corner exists, empty, every neighbour empty; with the source's reasons |
| Game.InitialSettlementAccepted | model/game.py:326-363 | an initial settlement is accepted exactly on an existing empty corner no road of which leads to an occupied corner |
| Game.InitialRoadCheckOrder | model/game.py:412-448 | can_place_initial_road is the chain: edge exists, free, touches the settlement; with the source's reasons |
| Game.InitialRoadLeadsAway | model/game.py:412-448 | an accepted initial road is listed at the settlement corner and leads to a neighbour |
| Game.PlaceInitialSettlement | model/game.py:365-410 | the result is ok exactly in a setup round with an acceptable corner. The settlement is then the current player's, and the player has one fewer settlement and one more point. Otherwise nothing changes |
| Game.PlaceInitialRoad | model/game.py:450-489 | the result is ok exactly when the road is acceptable. The road is then the current player's, the player has one fewer road, and the placement is appended. Otherwise nothing changes |
| Game.TakeBackSettlement | model/game.py:515-521 | the rollback restores the board and the player's state from before the settlement |
| Game.PlaceRoadOrTakeBack | model/game.py:514-522 | after the settlement, either the road is placed, or the settlement is taken back and the board and the player are as before |
| Game.RoadThenAdvance | model/game.py:514-526 | either the road is placed and the turn advances, or everything is restored to before the settlement |
| Game.CompleteInitialPlacement | model/game.py:491-526 | settlement and road together or neither: the result is ok exactly when both are acceptable, and then both are placed, recorded, and the turn advances; otherwise the game and the player are unchanged |
| Game.HexesYielding | model/game.py:556-564 | the number of hexes yielding r is at most the number of hexes |
| Game.InitialYieldNeedsPlacement | model/game.py:550-564 | a player who owns none of the credited placements receives nothing |
| Game.InitialYieldAtMostHexes | model/game.py:556-564 | at most one card per hex around each of the player's placements |
| Game.Credited | model/game.py:553-564 | crediting keeps the kinds held and never lowers a count |
| Game.CreditedStep | model/game.py:553-564 | one more placement credits its own player with its hexes' yield, and nobody else |
| Game.CreditHexes | model/game.py:556-564 | each count grows by the number of the corner's hexes that yield that kind |
| Game.DistributeInitialResources | model/game.py:528-566 | outside the main game nothing changes. In the main game each player's counts grow by the yield of that player's placements among the last n |
| TurnEngine.TotalRemove | engine/turn_engine.py:22-30 | the sum of a counter can take any entry first |
| TurnEngine.TotalSet | engine/turn_engine.py:22-30 | setting one count changes the total by the difference |
| TurnEngine.TotalDelete | engine/turn_engine.py:40-41 | deleting an entry takes its count off the total |
| TurnEngine.TotalNonNegative | engine/turn_engine.py:22-30 | a counter without negative entries has a non-negative total, and a positive total only if it holds a card |
| TurnEngine.Merged | engine/turn_engine.py:188 | Counter += keeps exactly the kinds whose summed count is positive, with that sum |
| TurnEngine.PlayerView.constructor | engine/turn_engine.py:15-20 | a view holds the given id, name and counter |
| TurnEngine.SumValues | engine/turn_engine.py:30 | sum(values) is the counter's total |
| TurnEngine.PlayerView.TotalCards | engine/turn_engine.py:22-30 | the result is the total number of cards, and it is non-negative for a valid view |
| TurnEngine.PlayerView.Add | engine/turn_engine.py:32-34 | for positive n the count grows by n; otherwise nothing changes |
| TurnEngine.PlayerView.Remove | engine/turn_engine.py:36-42 | the result is ok exactly when at least n are held. The count then drops by n, and the entry is deleted at 0. Otherwise nothing changes |
| TurnEngine.PlayerView.RemoveRandomCards | engine/turn_engine.py:44-62 | removes min(n, total) cards (none for n ≤ 0), each from what is held; the counts removed plus the counts kept equal the counts before |
| TurnEngine.CornerYieldBounds | engine/turn_engine.py:159-166 | a player who owns none of the corners gains nothing, and each corner pays at most 2 |
| TurnEngine.YieldSkipsTile | engine/turn_engine.py:155-157 | the robber tile, a tile with another number and a tile without resource pay nothing |
| TurnEngine.GainCorners | engine/turn_engine.py:159-166 | gained[owner][r] grows by 1 per settlement and 2 per city at the tile's corners |
| TurnEngine.OpponentsAmong | engine/turn_engine.py:213-217 | the opponents at any corners are players of the engine |
| TurnEngine.Opponents | engine/turn_engine.py:213-217 | the adjacent set is exactly the non-empty owners other than the current player at the tile's corners |
| TurnEngine.RobberMovedFlags | engine/turn_engine.py:191-211 | after the move the target is the robber id and differs from its old self only in being flagged; every other tile is as before, except the old robber tile, which is unflagged; the corner owners are untouched |
| TurnEngine.StealMovesCard | engine/turn_engine.py:224-226 | stealing a card the victim holds moves it: victim and thief together hold as many cards as before |
| TurnEngine.StealOfMissingCardCreatesOne | engine/turn_engine.py:224-226 | stealing a kind the victim lacks leaves the victim as before but still gives the thief a card |
| TurnEngine.DiscardedOneMore | engine/turn_engine.py:182-189 | one more player who held over 7 cards has discarded half, and the loop's progress now covers that player |
| TurnEngine.KeptUnder | engine/turn_engine.py:183 | a player holding at most 7 cards discards nothing |
| TurnEngine.Cleared | engine/turn_engine.py:192-200 | clearing the old robber flag keeps the same tiles |
| TurnEngine.TurnEngine.constructor | engine/turn_engine.py:129-143 | the engine holds the given views, order, board and policies |
| TurnEngine.TurnEngine.DistributeResources | engine/turn_engine.py:149-177 | every hand grows by exactly the returned gains, and the gains are what the producing tiles pay each owner of their corners |
| TurnEngine.TurnEngine.CollectGains | engine/turn_engine.py:154-166 | the first loop collects exactly the tiles' payouts |
| TurnEngine.TurnEngine.ApplyGains | engine/turn_engine.py:168-170 | each player's hand grows by the player's gains |
| TurnEngine.TurnEngine.CreditNext | engine/turn_engine.py:168-170 | one player's gains are credited and the progress moves past that player |
| TurnEngine.TurnEngine.CreditPlayer | engine/turn_engine.py:168-170 | the player's hand grows by exactly the gains |
| TurnEngine.TurnEngine.Credit | engine/turn_engine.py:169-170 | each count of the gains is added to the view |
| TurnEngine.TurnEngine.Discard | engine/turn_engine.py:185-188 | the policy's discard, topped up with random cards when it reports fewer than n |
| TurnEngine.TurnEngine.TopUp | engine/turn_engine.py:186-188 | with no shortfall nothing changes. Otherwise min(shortfall, total) more cards go, and each removed count is the report plus what left the hand |
| TurnEngine.TurnEngine.DiscardHalves | engine/turn_engine.py:182-189 | every player holding more than 7 cards discards half of them (rounded down), the others keep their hands, and the discards are recorded per player |
| TurnEngine.TurnEngine.DiscardStep | engine/turn_engine.py:183-189 | one round of the discard loop keeps the loop's progress |
| TurnEngine.TurnEngine.DiscardHalf | engine/turn_engine.py:184-189 | a player holding more than 7 cards discards half, and the discard is recorded |
| TurnEngine.TurnEngine.DiscardPlayer | engine/turn_engine.py:185-188 | one player's discard changes no other player's hand |
| TurnEngine.TurnEngine.MoveRobber | engine/turn_engine.py:191-211 | the old robber tile is unflagged. The target becomes the flagged robber tile. A target that is not a tile is a KeyError, raised after the old tile was cleared |
| TurnEngine.TurnEngine.Steal | engine/turn_engine.py:213-230 | there is no steal only when no opponent at the tile holds a card. Otherwise an opponent holding cards loses one card to the thief, and the default policy takes a kind the victim holds |
| TurnEngine.TurnEngine.StealFrom | engine/turn_engine.py:221-226 | the chosen resource moves from the victim to the thief, and the default policy picks a held kind |
| TurnEngine.TurnEngine.AdjacentOpponents | engine/turn_engine.py:213-217 | the adjacent set is exactly the opponents at the tile's corners |
| TurnEngine.TurnEngine.PickStealResource | engine/turn_engine.py:221-223 | the policy's resource when it names one; otherwise a random card of the hand |
| TurnEngine.TurnEngine.TakeCard | engine/turn_engine.py:224-225 | victim.remove(res, 1) and then thief.add(res, 1) |
| TurnEngine.TurnEngine.CardHolders | engine/turn_engine.py:219 | the candidates are exactly the given players who hold at least one card |
| TurnEngine.TurnEngine.HandleSeven | engine/turn_engine.py:179-232 | the discards as DiscardHalves states; then the robber moves to the policy's target; then the steal at the target tile as Steal states; a KeyError when the target is not a tile |
| TurnEngine.TurnEngine.DicePhase | engine/turn_engine.py:234-240 | a 7 runs the seven sequence: every hand going in is discarded from as DiscardedAll states, and either the robber moves to the policy's target and the steal there leaves the hands as StealOutcome states, or the target is not a tile, the KeyError is returned and the hands stay as the discards left them; any other roll pays out production as DistributeResources states and leaves the board alone |
| TurnAdapter.ResourceName | engine/turn_adapter.py:21-27 | a producing resource has a name; the desert has none |
| TurnAdapter.ResourceOf | engine/turn_adapter.py:29 | the five names map back to their resources; any other name is a KeyError |
| TurnAdapter.ResourceNameRoundTrip | engine/turn_adapter.py:21-29 | naming a producing resource and reading the name back gives the resource |
| TurnAdapter.ResourceOfRoundTrip | engine/turn_adapter.py:21-29 | reading a known name and naming the resource gives the name back |
| TurnAdapter.ResourceNameInjective | engine/turn_adapter.py:21-27 | different producing resources get different names |
| TurnAdapter.HandOf | engine/turn_adapter.py:62-66 | the engine's counter holds each producing kind under its name, and the desert is skipped |
| TurnAdapter.ViewHand | engine/turn_adapter.py:62-66 | the inner loop copies every count except the desert's under its name |
| TurnAdapter.IdFresh | engine/turn_adapter.py:67-69 | the next id string is not yet a key |
| TurnAdapter.IdsDistinct | engine/turn_adapter.py:67-69 | the ids "0", "1", ... are pairwise distinct |
| TurnAdapter.FileView | engine/turn_adapter.py:61-70 | one round files a fresh view and a baseline of the next player under str(id) |
| TurnAdapter.BuildPlayerViews | engine/turn_adapter.py:57-72 | one fresh view per player, filed under str(id) in player order, holding the player's counts by name, with an equal baseline |
| TurnAdapter.HexCorners | engine/turn_adapter.py:78-81 | the corners touching a hex, in board order |
| TurnAdapter.TileResource | engine/turn_adapter.py:84 | a hex's resource name: none for a hex without resource and for the desert |
| TurnAdapter.TileNumber | engine/turn_adapter.py:87 | a missing number token reads as 0 |
| TurnAdapter.OwnerEntry | engine/turn_adapter.py:93-98 | (str(owner), "city" or "settlement") for an owned corner, and (None, None) otherwise |
| TurnAdapter.BuildBoardSnapshot | engine/turn_adapter.py:74-104 | the hexes become tiles in board order, with the corner owners and the robber hex |
| TurnAdapter.SnapshotRobber | engine/turn_adapter.py:90-104 | exactly the robber hex is flagged, and it is the snapshot's robber id |
| TurnAdapter.SnapshotTile | engine/turn_adapter.py:83-91 | each tile lists exactly the corners touching it, each once, and carries the hex's number (0 when missing) and resource name |
| TurnAdapter.SnapshotOwner | engine/turn_adapter.py:93-98 | owners are players' ids as strings, and a corner pays 2 exactly when it is a city |
| TurnAdapter.PlayerIds | engine/turn_adapter.py:67-68 | the engine's player keys are the rendered ids |
| TurnAdapter.SnapshotShaped | engine/turn_adapter.py:74-104 | a snapshot of a well-formed board has its tiles in order and its owners among the players |
| TurnAdapter.YieldOnlyNamed | engine/turn_adapter.py:84 | production only ever pays in named resources |
| TurnAdapter.FirstTarget | engine/turn_adapter.py:131-137 | the first acceptable tile, in order, or None |
| TurnAdapter.ChooseRobberTarget | engine/turn_adapter.py:126-138 | the first tile that is not the robber's, has a resource, and has an opponent at a corner; failing that the robber tile when it is truthy, else the first tile |
| TurnAdapter.ChosenTileHasOpponents | engine/turn_adapter.py:131-137 | a tile picked on its merits is not the robber tile, has a resource, and has an opponent at a corner |
| TurnAdapter.TargetIsTile | engine/turn_adapter.py:126-138 | on a snapshot of the game, the target is a tile exactly when some tile is acceptable, the robber hex is a tile, or the robber id is 0 and the board has hexes |
| TurnAdapter.SyncFromBaseline | engine/turn_adapter.py:106-124 | starting from the baseline, the copy leaves exactly the view's count (0 when absent) |
| TurnAdapter.SyncPlayer | engine/turn_adapter.py:107-124 | the copy succeeds exactly when every name it reads is known, and then each count becomes the synced value |
| TurnAdapter.SyncPlayerResources | engine/turn_adapter.py:106-124 | players are synced in view order, each from its own view; on a KeyError the players before it are synced and those after are unchanged |
| TurnAdapter.ProductionSyncs | engine/turn_adapter.py:106-124 | after a non-seven roll, copying back adds exactly the player's yield |
| TurnAdapter.RobberWriteBack | engine/turn_adapter.py:54 | the stored robber is the engine's robber tile when it is truthy, else the old one |
| TurnAdapter.TileZeroNotWrittenBack | engine/turn_adapter.py:54 | a robber moved to tile 0 is not recorded, and the game keeps its old robber hex |
| TurnAdapter.TargetPolicy | engine/turn_adapter.py:46 | the policy given to the engine is the heuristic, defined wherever the heuristic does not raise |
| TurnAdapter.IdsCoverPlayers | engine/turn_adapter.py:106-109 | the keys listed by the order are exactly the player ids |
| TurnAdapter.ViewsReady | engine/turn_adapter.py:57-72 | views of players with valid holdings are valid, carry their own ids, and start at their baselines |
| TurnAdapter.NewEngine | engine/turn_adapter.py:42-51 | the engine is built over fresh views and the board's snapshot, with the default policies and the heuristic |
| TurnAdapter.ProducedCopies | engine/turn_adapter.py:52-53 | on a non-seven roll every view gains exactly its yield, so every copy succeeds |
| TurnAdapter.EngineSeven | engine/turn_adapter.py:42-52 | on a 7, the engine discards from the players' own hands; the engine succeeds exactly when the heuristic's target is a tile, and then the robber moves there and the steal happens at its corners; otherwise the views keep the discarded hands |
| TurnAdapter.EngineProduce | engine/turn_adapter.py:42-52 | on any other roll, every view grows from its player's hand by exactly its share of the board's yield, and the robber stays |
| TurnAdapter.StealOnSnapshot | engine/turn_adapter.py:52 | the steal at the engine's moved board is the steal at the snapshot's target tile, since the move changes no corner owner |
| TurnAdapter.StoreOutcome | engine/turn_adapter.py:53-54 | copies the views back and stores the robber tile as RobberWriteBack says; the copy succeeds exactly when every view can be copied onto its baseline, and then each player ends with its view's count of each resource; on a non-seven roll it cannot fail |
| TurnAdapter.DiscardKeepsNames | engine/turn_engine.py:44-62 | the random discard takes only cards held and leaves no negative count, so a name outside the five still holds no card |
| TurnAdapter.StealKeepsNames | engine/turn_engine.py:111-123 | the random steal names a card the victim holds, so after the steal a name outside the five still holds no card |
| TurnAdapter.SevenSyncable | engine/turn_adapter.py:106-124 | after a seven under the random policies every final hand can be copied onto the hand it started from |
| TurnAdapter.SyncedExactly | engine/turn_adapter.py:106-124 | a player synced from its own starting hand ends with exactly the view's count of each resource |
| TurnAdapter.StoreSeven | engine/turn_adapter.py:53-54 | after a seven that went through under the random policies, the copy always succeeds, stores the robber tile and leaves every player with the count the steal left in its view |
| TurnAdapter.SevenOnSnapshot | engine/turn_adapter.py:41-55 | on a 7 the discards start from every player's hand; it succeeds exactly when the target is a tile; a failure changes no player; on success the robber is stored and every player ends with the hand the steal left |
| TurnAdapter.ProduceOnSnapshot | engine/turn_adapter.py:41-55 | on any other roll every player's count grows by exactly its yield and the robber stays |
| TurnAdapter.DicePhaseOnSnapshot | engine/turn_adapter.py:41-55 | the dice phase on the snapshot: a non-seven roll adds exactly the yield; a 7 discards from every player's hand and succeeds exactly when the target is a tile, failing without changing a player, and on success stores the robber and leaves every player with the hand the steal left |
| TurnAdapter.RunDicePhase | engine/turn_adapter.py:41-55 | on a non-seven roll every player's counts grow by exactly the production and the robber stays; on a 7 the discards start from every player's hand, it succeeds exactly when the target is a hex, a failure (the KeyError) changes no player, and a success stores the robber and leaves every player with the counts the steal produced (the discards and the steal as DicePhase states) |
| CpuPlayer.BeforeIffHigherScore | engine/cpu_player.py:394-395 | with sort_index = -score, the heap puts a higher score first and never separates equal scores |
| CpuPlayer.NewCPUPlayer | engine/cpu_player.py:167-169 | without weights the player uses the default dials |
| CpuPlayer.Each | engine/cpu_player.py:184-236 | one action per option, in the order of the options |
| CpuPlayer.Segment | engine/cpu_player.py:184-236 | each block of the candidate list holds actions of a single type, the block's rank in generation order |
| CpuPlayer.AppendEach | engine/cpu_player.py:184-236 | each generation loop appends one action per option, in order |
| CpuPlayer.CandidatesArePrefix | engine/cpu_player.py:172-245 | the candidate list is its seven blocks in generation order |
| CpuPlayer.AppendBlock | engine/cpu_player.py:172-245 | an ordered list of lower ranks followed by a block of rank k stays ordered |
| CpuPlayer.PrefixOrdered | engine/cpu_player.py:172-245 | the first k blocks are in type order and hold only types of rank below k |
| CpuPlayer.CandidateLayout | engine/cpu_player.py:172-245 | there is one action per legal option, grouped by type in generation order, and exactly one pass, at the end |
| CpuPlayer.PassOnlyLast | engine/cpu_player.py:238-245 | the pass is last and is the only pass |
| CpuPlayer.GenerateCandidateActions | engine/cpu_player.py:172-245 | the list is built segment by segment and equals the candidate layout |
| CpuPlayer.HaveNeed | engine/cpu_player.py:432-440 | the covered part of each cost item never exceeds what it asks for |
| CpuPlayer.ProgressOf | engine/cpu_player.py:432-440 | progress toward a cost is at most 1, and it is not negative for plain hands and costs |
| CpuPlayer.Progress | engine/cpu_player.py:432-440 | the progress helper's loop computes ProgressOf |
| CpuPlayer.CoveredIffAffordable | engine/cpu_player.py:432-440 | for plain counts, covered equals asked-for exactly when the hand holds all of it |
| CpuPlayer.FullProgressIffAffordable | engine/cpu_player.py:432-440 | a positive cost shows full progress exactly when the hand can pay it |
| CpuPlayer.CanAfford | engine/cpu_player.py:405-411 | the result is true exactly when the hand holds every item of the cost |
| CpuPlayer.TradedCounts | engine/cpu_player.py:427-429 | the trade takes rate cards of give, adds one card of get, and leaves every other count alone |
| CpuPlayer.TradeProgressBounds | engine/cpu_player.py:414-461 | trade progress is never negative, and with plain counts it is at most 4 |
| CpuPlayer.TradeProgressTowardsBuilds | engine/cpu_player.py:414-461 | progress after the trade minus progress before, floored at zero |
| CpuPlayer.PhaseMultiplier | engine/cpu_player.py:264-283 | the phase weight is 1.0 for every phase and type pair the source does not list |
| CpuPlayer.DefaultMultiplierBoosts | engine/cpu_player.py:60-102 | with the default dials a phase only boosts: the multiplier is 1.0 exactly for the unlisted pairs |
| CpuPlayer.Score | engine/cpu_player.py:248-373 | the heuristic value of an action; a KeyError when a params key it reads is missing |
| CpuPlayer.ScoreAction | engine/cpu_player.py:248-373 | the method computes Score; its loop over the opponents stops at the first one the trade would let win |
| CpuPlayer.PassScore | engine/cpu_player.py:369-370 | a pass always scores minus the small penalty |
| CpuPlayer.WinEnablingTradeScore | engine/cpu_player.py:334-337 | a trade that lets an opponent win scores exactly minus the penalty |
| CpuPlayer.DiversityBonus | tests/test_cpu_intelligence.py:188-200 | of two settlement spots alike in pips and blocking, the one touching two or more kinds scores more, by exactly the phase-weighted diversity bonus |
| CpuPlayer.RepeatsAreOneKind | engine/cpu_player.py:291-294 | one resource named repeatedly earns no diversity bonus |
| CpuPlayer.StealBonus | engine/cpu_player.py:358-367 | a robber move that steals outscores one that does not, by the phase-weighted leader bonus |
| CpuPlayer.CityPrefersHighPip | tests/test_cpu_intelligence.py:235-242 | with positive dials, the higher-pip city scores higher |
| CpuPlayer.RoadPrefersLongest | tests/test_cpu_intelligence.py:244-252 | with positive dials, the road that does more for longest road scores higher |
| CpuPlayer.EarlySettlementBeatsDevCard | tests/test_cpu_intelligence.py:164-173 | early, with the default dials, any settlement with non-negative pips and blocking beats a development card |
| CpuPlayer.SettlementPrefersHighPip | tests/test_cpu_intelligence.py:175-186 | of two settlement spots alike in diversity and blocking, the one with more pips scores higher under positive dials |
| CpuPlayer.MidCityBeatsDevCard | tests/test_cpu_intelligence.py:307-318 | in the middle phase, with the default dials, a city on a spot with non-negative pips beats a development card |
| CpuPlayer.LateStealBeatsMinorRoad | tests/test_cpu_intelligence.py:320-330 | in the late phase, with the default dials, a robber move that steals beats a road whose lead and longest-road pull come to less than 4 |
| CpuPlayer.CandidatesFit | engine/cpu_player.py:184-236 | every candidate carries the params its type reads |
| CpuPlayer.Scored | engine/cpu_player.py:392-394 | the actions with their scores filled in |
| CpuPlayer.Queue | engine/cpu_player.py:392-395 | the queue holds every candidate in generation order, each with its score |
| CpuPlayer.RootIndex | engine/cpu_player.py:392-401 | the root is the first action of maximal score |
| CpuPlayer.Push | engine/cpu_player.py:395 | the new action becomes the root only when it comes strictly before the old root |
| CpuPlayer.ScoreAndPush | engine/cpu_player.py:392-395 | one round of the loop scores the action and pushes it |
| CpuPlayer.FillQueue | engine/cpu_player.py:392-395 | every action is scored and pushed in list order, and the root is the first best |
| CpuPlayer.ScoredSnoc | engine/cpu_player.py:392-394 | scoring one more action appends its scored copy |
| CpuPlayer.ChooseAction | engine/cpu_player.py:376-402 | the result is the root of the filled heap, the first candidate of maximal score, scored; the fallback for an empty heap is never reached, since the pass is always a candidate |
| CpuPlayer.ChoiceIsFirstBest | engine/cpu_player.py:397-402 | the queue is never empty; the choice is a scored candidate, no candidate scores more, and no earlier candidate scores as much |
| CpuPlayer.PassWhenNothingElse | tests/test_cpu_intelligence.py:294-305 | when the rules allow nothing, the pass is chosen at its small penalty |
| CpuPlayer.WinEnablingTradeNeverChosen | tests/test_cpu_intelligence.py:202-212 | while passing costs less than the win penalty, a trade that lets an opponent win is never chosen |
| CpuPlayer.PassNotChosenWhenUseful | tests/test_cpu_intelligence.py:285-292 | when some candidate scores above the pass, the pass is not chosen |

## Left out

- The dice are an input: roll_dice, GameSetup._roll_dice and determine_turn_order (re-rolling ties) are not modelled.
- run_full_setup, run_main_game_loop, _execute_dice_phase, _summarise_dice_events, the human and CPU turn drivers, the prompts, _print_player_resources and all printing are interactive or console I/O.
- create_standard_board, HexTile, Port and player_has_port are not modelled. BoardGraph is a stub in the repository, so the model defines its own board value (corners, roads and hexes by id, plus their dictionary orders). create_game takes the board as a parameter.
- Longest road and largest army are not computed anywhere in the modelled code; the CPU player reads them only as adapter values.
- The UI files are not part of this model.
- GameSetup's "Game not created" branches are not modelled: the setup operations take an existing GameState.
- The default victim policy is the only victim policy: it is a nondeterministic choice among the candidates. Custom discard and steal policies are pure functions.
- TurnEngine.TurnEngine.HandleSeven: requires the current player to be in the engine. The source raises KeyError only when a steal happens.
- TurnEngine.PlayerView.RemoveRandomCards: requires the hand to hold cards whenever n exceeds the total. A hand of zero-count entries would make random.choice raise IndexError.
- TurnEngine.TurnEngine.Discard: requires DiscardPolicyOk. A custom discard policy must not leave negative counts, which excludes the same IndexError.
- TurnAdapter.RunDicePhase: requires every owner on the board to be a player index, and on a 7 requires the current player to be one. The source would raise KeyError later.
- TurnAdapter.RunDicePhase: on a 7 requires a truthy robber hex or a board with hexes. With neither, the source's heuristic raises StopIteration at engine/turn_adapter.py:138.
- TurnAdapter.ChooseRobberTarget: requires a truthy robber tile or a non-empty tile order. With neither, next(iter(...)) raises StopIteration at engine/turn_adapter.py:138.
- TurnEngine.TurnEngine.Valid: OwnedBy requires every owner on the board to be an engine player. The source raises KeyError at engine/turn_engine.py:175 only for an owner at a producing tile's corner, so boards with other stray owners are not covered.
- Game.GameState.NextTurn: requires a non-empty player list outside the setup rounds. The source's modulo raises ZeroDivisionError at model/game.py:173 on an empty list.
- Game.GameState.GetCurrentPlayer: requires HasCurrentPlayer. The source raises IndexError at model/game.py:141-142 when the index is outside the turn order or the player list.
- Game.GameState.CurrentIndex: requires HasCurrentPlayer, for the same IndexError at model/game.py:141-142.
- TurnEngine.TurnEngine.DicePhase: on a 7 requires the current player to be in the engine, as HandleSeven does. The source raises KeyError only when a steal happens.
- TurnAdapter.BuildBoardSnapshot: requires every corner's hexes to be hexes of the board, which the source needs to avoid a KeyError.
- TurnAdapter.HexCorners: lists a corner once even when its hex list names the hex twice, where the source appends it once per occurrence. Well-formed boards, which the game keeps, have no repeated hex in a corner's list.
- Game.Player.AddResource: requires the kind to be held; the source raises KeyError for a missing kind.
- Game.Player.RemoveResource: requires the kind to be held; the source raises KeyError for a missing kind.
- Game.DistributeInitialResources: requires each credited placement to name a player and a corner, and excludes hexes with the Desert resource. The source would raise KeyError on those (the desert has no entry in a player's resources).
- BuildingService.BuildingService.BuildSettlement: requires the player id to be in range, with negative ids counting from the end as in Python. The same holds for BuildRoad, UpgradeToCity and the CPU builders; an out-of-range id is an IndexError in the source.
- BuildingService.BuildingService.GetVerticesWithResource: the order of list(set(...)) is left unspecified; only membership and the absence of duplicates are stated.
- Pathfinding.GetPlayerConnectedVertices: the order of list(connected) is left unspecified.
- BuildingService.BuildingService.CpuBuildSettlement: a missing list of preferred resources is modelled as an empty one, which scores the same. The stable sort is a function on values, not Timsort.
- Pathfinding.DijkstraShortestPath: only the popping of heapq's least entry is modelled. The heap is a list scanned for its least entry, and the sift operations are not modelled.
- CpuPlayer.ChooseAction: only the root of heapq is modelled; the rest of the heap's layout is not.
- The RulesAdapter protocol is a record of pure functions, and execute is not modelled. Floats are reals: rounding is not modelled.
- CpuPlayer.ChooseAction: actions are scored as values rather than mutated in place, so aliasing between the list and the heap is not modelled.
- CpuPlayer.PhaseMultiplier: the ensures covers only the unlisted phase and type pairs. The listed pairs are the dials themselves.
- The bank-trade excess bonus test (test_cpu_intelligence) is not stated as a lemma: its outcome depends on the adapter's profile values.
- The event dictionaries of the turn engine are datatypes (SevenEvents, DiceEvents), not string-keyed dictionaries.
