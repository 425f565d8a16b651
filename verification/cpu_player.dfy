/**
 * The CPU decision engine of engine/cpu_player.py: it lists every action the
 * rules allow, scores each with weighted heuristics, and takes the best one
 * off a priority queue. The game is seen only through a rules adapter, here a
 * record of the values and functions the engine asks it for.
 */
module CpuPlayer {
  import opened Wrappers
  import opened Enums
  import opened Strings

  // ---------------------------------------------------------------------------
  // Actions, weights and the rules adapter
  // ---------------------------------------------------------------------------

  datatype ActionType = BuildSettlement | BuildRoad | BuildCity | BuyDevCard | BankTrade | PlayerTrade | MoveRobber | Pass

  /** The params dict of an action, by the keys it holds. */
  datatype Params =
    | NoParams
    | VertexParams(vertexId: int)
    | EdgeParams(edgeId: int)
    | TradeParams(give: Resource, get: Resource, rate: int)
    | RobberParams(hexId: int, stealFrom: Option<int>)

  /** One possible move with its score; its sort index is the negated score. */
  datatype CPUAction = CPUAction(score: real, actionType: ActionType, params: Params, explanation: string)

  function SortIndex(a: CPUAction): real {
    -a.score
  }

  /** The dataclass order the priority queue uses: sort index first, then score. */
  predicate Before(a: CPUAction, b: CPUAction) {
    SortIndex(a) < SortIndex(b) || (SortIndex(a) == SortIndex(b) && a.score < b.score)
  }

  /** The queue puts a higher score first, and never separates equal scores. */
  lemma BeforeIffHigherScore(a: CPUAction, b: CPUAction)
    ensures Before(a, b) <==> a.score > b.score
  {
  }

  /** The dials of the heuristics. */
  datatype CPUWeights = CPUWeights(
    earlyWeightSettlement: real, earlyWeightRoad: real,
    midWeightCity: real, midWeightDev: real,
    lateWeightCity: real, lateWeightDev: real, lateWeightBlocking: real,
    baseValueSettlement: real, baseValueRoad: real, baseValueCity: real, baseValueDev: real, baseValueRobberBlock: real,
    pipValuePerPoint: real, resourceDiversityBonus: real, cityOnHighPipBonusFactor: real,
    longestRoadPush: real, largestArmyPush: real,
    tradeEnableOpponentWinPenalty: real, blockLeaderBonus: real, avoidSelfHarmPenalty: real,
    bankTradeProgressWeight: real, bankTradeScarcityPenalty: real, bankTradeExcessBonus: real,
    passSmallPenalty: real)

  /** CPUWeights() with every field at its declared default. */
  const DefaultWeights := CPUWeights(
    2.0, 1.2,
    2.0, 1.4,
    2.2, 1.8, 2.3,
    8.0, 2.5, 10.0, 4.0, 3.0,
    0.6, 1.5, 0.25,
    1.6, 1.6,
    1000.0, 3.5, 6.0,
    3.5, 2.0, 1.2,
    0.8)

  /** A build cost dict, as its items in order. */
  type Cost = seq<(Resource, int)>

  /** The queries the engine puts to the game, one field per adapter method it calls. */
  datatype RulesAdapter = RulesAdapter(
    currentPlayerId: int,
    opponents: seq<int>,
    gamePhase: string,
    playerResources: int -> map<Resource, int>,
    resourceProductionProfile: int -> map<Resource, real>,
    boardResourceScarcity: map<Resource, real>,
    buildCostSettlement: Cost,
    buildCostRoad: Cost,
    buildCostCity: Cost,
    buildCostDevCard: Cost,
    legalSettlementVertices: int -> seq<int>,
    legalRoadEdges: int -> seq<int>,
    upgradeableVertices: int -> seq<int>,
    canBuyDevCard: int -> bool,
    bankTradeOptions: int -> seq<(Resource, Resource, int)>,
    robberMoveOptions: int -> seq<(int, Option<int>)>,
    vertexPip: int -> real,
    vertexResourceSet: int -> seq<Resource>,
    roadExpandsTowardsValue: int -> real,
    roadContributesLongest: (int, int) -> real,
    settlementBlocksOpponentValue: int -> real,
    wouldTradeEnableOpponentWin: (int, Resource, Resource, int) -> bool)

  datatype CPUPlayer = CPUPlayer(rules: RulesAdapter, weights: CPUWeights)

  /** CPUPlayer(rules, weights): without weights the player uses the defaults. */
  function NewCPUPlayer(rules: RulesAdapter, weights: Option<CPUWeights>): (p: CPUPlayer)
    ensures p.rules == rules
    ensures weights.None? ==> p.weights == DefaultWeights
    ensures weights.Some? ==> p.weights == weights.value
  {
    CPUPlayer(rules, if weights.Some? then weights.value else DefaultWeights)
  }

  // ---------------------------------------------------------------------------
  // Candidate generation
  // ---------------------------------------------------------------------------

  /** The Python name of a resource member, as shown in trade explanations. */
  function MemberName(r: Resource): string {
    match r {
      case Brick => "BRICK"
      case Lumber => "LUMBER"
      case Ore => "ORE"
      case Grain => "GRAIN"
      case Wool => "WOOL"
      case Desert => "DESERT"
    }
  }

  function SettleAction(v: int): CPUAction {
    CPUAction(0.0, BuildSettlement, VertexParams(v), "Build settlement")
  }

  function RoadAction(e: int): CPUAction {
    CPUAction(0.0, BuildRoad, EdgeParams(e), "Build road")
  }

  function CityAction(v: int): CPUAction {
    CPUAction(0.0, BuildCity, VertexParams(v), "Upgrade settlement to city")
  }

  const DevAction := CPUAction(0.0, BuyDevCard, NoParams, "Buy development card")

  function TradeAction(t: (Resource, Resource, int)): CPUAction {
    CPUAction(0.0, BankTrade, TradeParams(t.0, t.1, t.2),
              "Bank trade " + ShowInt(t.2) + ":1 " + MemberName(t.0) + "->" + MemberName(t.1))
  }

  function RobberAction(m: (int, Option<int>)): CPUAction {
    CPUAction(0.0, MoveRobber, RobberParams(m.0, m.1), "Move robber")
  }

  const PassAction := CPUAction(0.0, Pass, NoParams, "Pass / save resources")

  /** One action per element, in the element order. */
  function Each<T>(xs: seq<T>, f: T -> CPUAction): (acts: seq<CPUAction>)
    ensures |acts| == |xs|
    ensures forall i :: 0 <= i < |xs| ==> acts[i] == f(xs[i])
    decreases |xs|
  {
    if xs == [] then [] else Each(xs[..|xs| - 1], f) + [f(xs[|xs| - 1])]
  }

  /** The candidate list: settlements, roads, cities, the card, trades, robber moves, then a pass. */
  function Candidates(p: CPUPlayer): seq<CPUAction> {
    var r := p.rules;
    var pid := r.currentPlayerId;
    Each(r.legalSettlementVertices(pid), SettleAction)
    + Each(r.legalRoadEdges(pid), RoadAction)
    + Each(r.upgradeableVertices(pid), CityAction)
    + (if r.canBuyDevCard(pid) then [DevAction] else [])
    + Each(r.bankTradeOptions(pid), TradeAction)
    + Each(r.robberMoveOptions(pid), RobberAction)
    + [PassAction]
  }

  /** The position of each action type in the generation order. */
  function Rank(t: ActionType): nat {
    match t {
      case BuildSettlement => 0
      case BuildRoad => 1
      case BuildCity => 2
      case BuyDevCard => 3
      case BankTrade => 4
      case PlayerTrade => 4
      case MoveRobber => 5
      case Pass => 6
    }
  }

  /** The actions come in generation order of their types. */
  predicate InTypeOrder(acts: seq<CPUAction>) {
    forall i, j :: 0 <= i < j < |acts| ==> Rank(acts[i].actionType) <= Rank(acts[j].actionType)
  }

  /** Every action of the list has a type of rank below k. */
  predicate RanksBelow(acts: seq<CPUAction>, k: nat) {
    forall i :: 0 <= i < |acts| ==> Rank(acts[i].actionType) < k
  }

  /** The k-th block of the candidate list, in generation order. */
  function Segment(p: CPUPlayer, k: nat): (block: seq<CPUAction>)
    requires k < 7
    ensures forall i :: 0 <= i < |block| ==> Rank(block[i].actionType) == k
  {
    var r := p.rules;
    var pid := r.currentPlayerId;
    if k == 0 then Each(r.legalSettlementVertices(pid), SettleAction)
    else if k == 1 then Each(r.legalRoadEdges(pid), RoadAction)
    else if k == 2 then Each(r.upgradeableVertices(pid), CityAction)
    else if k == 3 then (if r.canBuyDevCard(pid) then [DevAction] else [])
    else if k == 4 then Each(r.bankTradeOptions(pid), TradeAction)
    else if k == 5 then Each(r.robberMoveOptions(pid), RobberAction)
    else [PassAction]
  }

  /** The first k blocks of the candidate list. */
  function Prefix(p: CPUPlayer, k: nat): seq<CPUAction>
    requires k <= 7
    decreases k
  {
    if k == 0 then [] else Prefix(p, k - 1) + Segment(p, k - 1)
  }

  /** The candidate list is its seven blocks in order. */
  lemma CandidatesArePrefix(p: CPUPlayer)
    ensures Candidates(p) == Prefix(p, 7)
    ensures Candidates(p) == Prefix(p, 6) + [PassAction]
  {
    assert [] + Segment(p, 0) == Segment(p, 0);
  }

  /** An ordered list of ranks below k, followed by a block of rank k, stays ordered. */
  lemma AppendBlock(front: seq<CPUAction>, block: seq<CPUAction>, k: nat)
    requires forall i :: 0 <= i < |block| ==> Rank(block[i].actionType) == k
    requires InTypeOrder(front) && RanksBelow(front, k)
    ensures InTypeOrder(front + block) && RanksBelow(front + block, k + 1)
  {
    var all := front + block;
    forall i, j | 0 <= i < j < |all|
      ensures Rank(all[i].actionType) <= Rank(all[j].actionType)
    {
      if j < |front| {
        assert all[i] == front[i] && all[j] == front[j];
      } else if i < |front| {
        assert all[i] == front[i] && all[j] == block[j - |front|];
      } else {
        assert all[i] == block[i - |front|] && all[j] == block[j - |front|];
      }
    }
    forall i | 0 <= i < |all|
      ensures Rank(all[i].actionType) < k + 1
    {
      if i < |front| {
        assert all[i] == front[i];
      } else {
        assert all[i] == block[i - |front|];
      }
    }
  }

  /** The first k blocks are in type order, and hold only types of rank below k. */
  lemma {:induction false} PrefixOrdered(p: CPUPlayer, k: nat)
    requires k <= 7
    ensures InTypeOrder(Prefix(p, k)) && RanksBelow(Prefix(p, k), k)
    decreases k
  {
    if k > 0 {
      PrefixOrdered(p, k - 1);
      AppendBlock(Prefix(p, k - 1), Segment(p, k - 1), k - 1);
    }
  }

  /**
   * The shape of the candidate list: one action per legal option, grouped by
   * type in generation order, and exactly one pass, at the end.
   */
  lemma CandidateLayout(p: CPUPlayer)
    ensures var r := p.rules;
      var pid := r.currentPlayerId;
      var cs := Candidates(p);
      && |cs| == |r.legalSettlementVertices(pid)| + |r.legalRoadEdges(pid)| + |r.upgradeableVertices(pid)|
                 + (if r.canBuyDevCard(pid) then 1 else 0) + |r.bankTradeOptions(pid)| + |r.robberMoveOptions(pid)| + 1
      && cs[|cs| - 1] == PassAction
      && (forall i :: 0 <= i < |cs| - 1 ==> cs[i].actionType != Pass)
      && InTypeOrder(cs)
  {
    CandidatesArePrefix(p);
    PrefixOrdered(p, 7);
    PrefixOrdered(p, 6);
    PassOnlyLast(Prefix(p, 6), Candidates(p));
  }

  /** A list of ranks below that of the pass, followed by the pass, has its only pass at the end. */
  lemma PassOnlyLast(front: seq<CPUAction>, cs: seq<CPUAction>)
    requires cs == front + [PassAction] && RanksBelow(front, 6)
    ensures cs[|cs| - 1] == PassAction
    ensures forall i :: 0 <= i < |cs| - 1 ==> cs[i].actionType != Pass
  {
    forall i | 0 <= i < |cs| - 1
      ensures cs[i].actionType != Pass
    {
      assert cs[i] == front[i];
    }
  }

  /** Append one action per element, one at a time. */
  method AppendEach<T>(actions: seq<CPUAction>, xs: seq<T>, f: T -> CPUAction) returns (actions': seq<CPUAction>)
    ensures actions' == actions + Each(xs, f)
  {
    actions' := actions;
    for i := 0 to |xs|
      invariant actions' == actions + Each(xs[..i], f)
    {
      assert xs[..i + 1][..i] == xs[..i];
      actions' := actions' + [f(xs[i])];
    }
    assert xs[..|xs|] == xs;
  }

  /** generate_candidate_actions: the candidate list, built segment by segment. */
  method GenerateCandidateActions(p: CPUPlayer) returns (actions: seq<CPUAction>)
    ensures actions == Candidates(p)
  {
    var r := p.rules;
    var pid := r.currentPlayerId;
    actions := [];
    actions := AppendEach(actions, r.legalSettlementVertices(pid), SettleAction);
    ghost var front := Each(r.legalSettlementVertices(pid), SettleAction);
    assert actions == front;
    actions := AppendEach(actions, r.legalRoadEdges(pid), RoadAction);
    actions := AppendEach(actions, r.upgradeableVertices(pid), CityAction);
    front := front + Each(r.legalRoadEdges(pid), RoadAction) + Each(r.upgradeableVertices(pid), CityAction);
    assert actions == front;
    if r.canBuyDevCard(pid) {
      actions := actions + [DevAction];
    }
    front := front + (if r.canBuyDevCard(pid) then [DevAction] else []);
    assert actions == front;
    actions := AppendEach(actions, r.bankTradeOptions(pid), TradeAction);
    actions := AppendEach(actions, r.robberMoveOptions(pid), RobberAction);
    actions := actions + [PassAction];
  }

  // ---------------------------------------------------------------------------
  // Trade progress and affordability
  // ---------------------------------------------------------------------------

  /** dict.get(r, 0) on a hand. */
  function Held(m: map<Resource, int>, r: Resource): int {
    if r in m then m[r] else 0
  }

  /** dict.get(r, 0.0) on a real-valued table. */
  function Rate(m: map<Resource, real>, r: Resource): real {
    if r in m then m[r] else 0.0
  }

  function MaxReal(a: real, b: real): real {
    if a >= b then a else b
  }

  function MaxInt(a: int, b: int): int {
    if a >= b then a else b
  }

  function MinInt(a: int, b: int): int {
    if a <= b then a else b
  }

  /** No hand entry is negative. */
  predicate NonNegativeHand(res: map<Resource, int>) {
    forall r :: r in res ==> res[r] >= 0
  }

  /** No cost entry is negative. */
  predicate NonNegativeCost(cost: Cost) {
    forall i :: 0 <= i < |cost| ==> cost[i].1 >= 0
  }

  /**
   * What the hand covers of a cost and what the cost asks for, summed over its
   * items: the covered part of an item never exceeds what it asks for.
   */
  function HaveNeed(res: map<Resource, int>, cost: Cost): (hn: (int, int))
    ensures hn.0 <= hn.1 && 0 <= hn.1
    ensures NonNegativeHand(res) && NonNegativeCost(cost) ==> 0 <= hn.0
    decreases |cost|
  {
    if cost == [] then (0, 0)
    else
      var hn := HaveNeed(res, cost[..|cost| - 1]);
      var item := cost[|cost| - 1];
      (hn.0 + MinInt(Held(res, item.0), item.1), hn.1 + MaxInt(0, item.1))
  }

  /** The share of a cost the hand covers: at most 1, and not negative for plain hands and costs. */
  function ProgressOf(res: map<Resource, int>, cost: Cost): (ratio: real)
    ensures ratio <= 1.0
    ensures NonNegativeHand(res) && NonNegativeCost(cost) ==> 0.0 <= ratio
  {
    var hn := HaveNeed(res, cost);
    if hn.1 == 0 then 0.0
    else
      RatioBounds(hn.0 as real, hn.1 as real);
      hn.0 as real / hn.1 as real
  }

  /** The inner progress helper: the covered and asked-for counts summed item by item. */
  method Progress(res: map<Resource, int>, cost: Cost) returns (ratio: real)
    ensures ratio == ProgressOf(res, cost)
  {
    var have, need := 0, 0;
    for i := 0 to |cost|
      invariant (have, need) == HaveNeed(res, cost[..i])
    {
      assert cost[..i + 1][..i] == cost[..i];
      var item := cost[i];
      need := need + MaxInt(0, item.1);
      have := have + MinInt(Held(res, item.0), item.1);
    }
    assert cost[..|cost|] == cost;
    if need == 0 {
      return 0.0;
    }
    ratio := have as real / need as real;
  }

  /** A hand holds every item of a cost. */
  predicate Affordable(res: map<Resource, int>, cost: Cost) {
    forall i :: 0 <= i < |cost| ==> Held(res, cost[i].0) >= cost[i].1
  }

  /** For a cost of plain counts, covered equals asked-for exactly when the hand holds it all. */
  lemma {:induction false} CoveredIffAffordable(res: map<Resource, int>, cost: Cost)
    requires NonNegativeCost(cost)
    ensures HaveNeed(res, cost).0 == HaveNeed(res, cost).1 <==> Affordable(res, cost)
    decreases |cost|
  {
    if cost != [] {
      var front := cost[..|cost| - 1];
      CoveredIffAffordable(res, front);
      var item := cost[|cost| - 1];
      if Affordable(res, cost) {
        assert Affordable(res, front) by {
          forall i | 0 <= i < |front|
            ensures Held(res, front[i].0) >= front[i].1
          {
            assert front[i] == cost[i];
          }
        }
      } else if Affordable(res, front) {
        assert Held(res, item.0) < item.1;
      } else {
        assert HaveNeed(res, front).0 < HaveNeed(res, front).1;
      }
    }
  }

  /** A positive cost shows full progress exactly when the hand can pay it. */
  lemma FullProgressIffAffordable(res: map<Resource, int>, cost: Cost)
    requires NonNegativeCost(cost) && HaveNeed(res, cost).1 > 0
    ensures ProgressOf(res, cost) == 1.0 <==> Affordable(res, cost)
  {
    CoveredIffAffordable(res, cost);
    var hn := HaveNeed(res, cost);
    RatioIsOne(hn.0 as real, hn.1 as real);
  }

  /** A quotient by a positive number is at most one when the dividend is at most the divisor, and not negative when the dividend is not. */
  lemma RatioBounds(a: real, b: real)
    requires b > 0.0
    ensures a <= b ==> a / b <= 1.0
    ensures 0.0 <= a ==> 0.0 <= a / b
  {
    assert a == (a / b) * b;
  }

  /** A quotient by a positive number is one exactly when the two are equal. */
  lemma RatioIsOne(a: real, b: real)
    requires b > 0.0
    ensures a / b == 1.0 <==> a == b
  {
    if a / b == 1.0 {
      assert a == (a / b) * b;
    }
  }

  /** _can_afford: whether the current player's hand holds every item of the cost. */
  method CanAfford(p: CPUPlayer, cost: Cost) returns (ok: bool)
    ensures ok <==> Affordable(p.rules.playerResources(p.rules.currentPlayerId), cost)
  {
    var res := p.rules.playerResources(p.rules.currentPlayerId);
    for i := 0 to |cost|
      invariant forall k :: 0 <= k < i ==> Held(res, cost[k].0) >= cost[k].1
    {
      if Held(res, cost[i].0) < cost[i].1 {
        return false;
      }
    }
    return true;
  }

  /** The hand after trading rate cards of give for one card of get. */
  function Traded(res: map<Resource, int>, give: Resource, get: Resource, rate: int): map<Resource, int> {
    var mid := res[give := Held(res, give) - rate];
    mid[get := Held(mid, get) + 1]
  }

  /** The trade takes rate cards of give, adds one card of get, and leaves every other count alone. */
  lemma TradedCounts(res: map<Resource, int>, give: Resource, get: Resource, rate: int)
    ensures var after := Traded(res, give, get, rate);
      && (give != get ==> Held(after, give) == Held(res, give) - rate && Held(after, get) == Held(res, get) + 1)
      && (give == get ==> Held(after, give) == Held(res, give) - rate + 1)
      && (forall r :: r != give && r != get ==> Held(after, r) == Held(res, r))
  {
  }

  /** The summed progress towards the four builds. */
  function BuildProgress(r: RulesAdapter, res: map<Resource, int>): real {
    ProgressOf(res, r.buildCostSettlement) + ProgressOf(res, r.buildCostCity)
    + ProgressOf(res, r.buildCostRoad) + ProgressOf(res, r.buildCostDevCard)
  }

  /** All four build costs are plain counts. */
  predicate PlainCosts(r: RulesAdapter) {
    NonNegativeCost(r.buildCostSettlement) && NonNegativeCost(r.buildCostCity)
    && NonNegativeCost(r.buildCostRoad) && NonNegativeCost(r.buildCostDevCard)
  }

  /** How much a trade improves the summed progress towards the four builds, never below zero. */
  function TradeProgress(p: CPUPlayer, give: Resource, get: Resource, rate: int): real {
    var res := p.rules.playerResources(p.rules.currentPlayerId);
    MaxReal(0.0, BuildProgress(p.rules, Traded(res, give, get, rate)) - BuildProgress(p.rules, res))
  }

  /**
   * The trade progress is never negative; with a plain hand and plain costs it
   * is at most 4, one full build's worth per build kind.
   */
  lemma TradeProgressBounds(p: CPUPlayer, give: Resource, get: Resource, rate: int)
    ensures 0.0 <= TradeProgress(p, give, get, rate)
    ensures NonNegativeHand(p.rules.playerResources(p.rules.currentPlayerId)) && PlainCosts(p.rules) ==>
      TradeProgress(p, give, get, rate) <= 4.0
  {
    var r := p.rules;
    var res := r.playerResources(r.currentPlayerId);
    var after := Traded(res, give, get, rate);
    assert BuildProgress(r, after) <= 4.0;
    if NonNegativeHand(res) && PlainCosts(r) {
      assert 0.0 <= BuildProgress(r, res);
    }
  }

  /** _trade_progress_towards_builds: progress after the trade minus progress before, floored at zero. */
  method TradeProgressTowardsBuilds(p: CPUPlayer, give: Resource, get: Resource, rate: int) returns (progress: real)
    ensures progress == TradeProgress(p, give, get, rate)
  {
    var r := p.rules;
    var before := r.playerResources(r.currentPlayerId);
    var after := before[give := Held(before, give) - rate];
    after := after[get := Held(after, get) + 1];
    assert after == Traded(before, give, get, rate);
    var s0 := Progress(before, r.buildCostSettlement);
    var c0 := Progress(before, r.buildCostCity);
    var r0 := Progress(before, r.buildCostRoad);
    var d0 := Progress(before, r.buildCostDevCard);
    var s1 := Progress(after, r.buildCostSettlement);
    var c1 := Progress(after, r.buildCostCity);
    var r1 := Progress(after, r.buildCostRoad);
    var d1 := Progress(after, r.buildCostDevCard);
    assert s0 + c0 + r0 + d0 == BuildProgress(r, before);
    assert s1 + c1 + r1 + d1 == BuildProgress(r, after);
    progress := MaxReal(0.0, (s1 + c1 + r1 + d1) - (s0 + c0 + r0 + d0));
  }

  // ---------------------------------------------------------------------------
  // Scoring
  // ---------------------------------------------------------------------------

  /** The (phase, action type) pairs that have a weight of their own. */
  const WeightedPairs: set<(string, ActionType)> := {
    ("early", BuildSettlement), ("early", BuildRoad),
    ("mid", BuildCity), ("mid", BuyDevCard),
    ("late", BuildCity), ("late", BuyDevCard), ("late", MoveRobber), ("late", BuildRoad), ("late", BuildSettlement)
  }

  /** phase_multiplier_for: the phase weight of an action type, 1.0 for every pair without one. */
  function PhaseMultiplier(w: CPUWeights, phase: string, t: ActionType): (m: real)
    ensures (phase, t) !in WeightedPairs ==> m == 1.0
  {
    if phase == "early" then
      if t == BuildSettlement then w.earlyWeightSettlement
      else if t == BuildRoad then w.earlyWeightRoad
      else 1.0
    else if phase == "mid" then
      if t == BuildCity then w.midWeightCity
      else if t == BuyDevCard then w.midWeightDev
      else 1.0
    else if phase == "late" then
      if t == BuildCity then w.lateWeightCity
      else if t == BuyDevCard then w.lateWeightDev
      else if t in {MoveRobber, BuildRoad, BuildSettlement} then w.lateWeightBlocking
      else 1.0
    else 1.0
  }

  /** With the default dials a phase only ever boosts: the multiplier is 1.0 exactly for the unlisted pairs. */
  lemma DefaultMultiplierBoosts(phase: string, t: ActionType)
    ensures PhaseMultiplier(DefaultWeights, phase, t) >= 1.0
    ensures PhaseMultiplier(DefaultWeights, phase, t) == 1.0 <==> (phase, t) !in WeightedPairs
  {
  }

  /** The distinct resources around a vertex. */
  function Kinds(rs: seq<Resource>): set<Resource> {
    set r | r in rs
  }

  /** Some opponent would win from this trade. */
  predicate EnablesOpponentWin(r: RulesAdapter, give: Resource, get: Resource, rate: int) {
    exists i :: 0 <= i < |r.opponents| && r.wouldTradeEnableOpponentWin(r.opponents[i], give, get, rate)
  }

  /** The params key an action type reads is present. */
  predicate ParamsFit(a: CPUAction) {
    match a.actionType {
      case BuildSettlement => a.params.VertexParams?
      case BuildCity => a.params.VertexParams?
      case BuildRoad => a.params.EdgeParams?
      case BankTrade => a.params.TradeParams?
      case MoveRobber => a.params.RobberParams?
      case _ => true
    }
  }

  /** The phase multiplier of an action type in the current phase. */
  function Pm(p: CPUPlayer, t: ActionType): real {
    PhaseMultiplier(p.weights, p.rules.gamePhase, t)
  }

  /** A settlement: base value, pips, a bonus for two or more distinct resources, and the blocking value. */
  function SettlementValue(p: CPUPlayer, v: int): real {
    var w := p.weights;
    var r := p.rules;
    var diversity := if |Kinds(r.vertexResourceSet(v))| >= 2 then w.resourceDiversityBonus else 0.0;
    var block := r.settlementBlocksOpponentValue(v) * w.blockLeaderBonus;
    (w.baseValueSettlement + r.vertexPip(v) * w.pipValuePerPoint + diversity + block) * Pm(p, BuildSettlement)
  }

  /** A city: base value plus a share of the vertex's pips. */
  function CityValue(p: CPUPlayer, v: int): real {
    var w := p.weights;
    (w.baseValueCity + p.rules.vertexPip(v) * w.cityOnHighPipBonusFactor) * Pm(p, BuildCity)
  }

  /** A road: base value, where it leads, and its pull towards the longest road. */
  function RoadValue(p: CPUPlayer, e: int): real {
    var w := p.weights;
    var r := p.rules;
    (w.baseValueRoad + r.roadExpandsTowardsValue(e) + r.roadContributesLongest(r.currentPlayerId, e) * w.longestRoadPush)
    * Pm(p, BuildRoad)
  }

  /** A development card: base value plus the pull towards the largest army. */
  function DevValue(p: CPUPlayer): real {
    (p.weights.baseValueDev + p.weights.largestArmyPush) * Pm(p, BuyDevCard)
  }

  /** The value of a bank trade no opponent would win from, out of its weighted parts. */
  function TradeValue(w: CPUWeights, progress: real, excess: real, scarcityOfGive: real, need: real, pm: real): real {
    (progress * w.bankTradeProgressWeight + excess * w.bankTradeExcessBonus
     - scarcityOfGive * w.bankTradeScarcityPenalty + need) * pm
  }

  /** What a surplus of the given resource is worth: production above one. */
  function Excess(p: CPUPlayer, give: Resource): real {
    MaxReal(0.0, Rate(p.rules.resourceProductionProfile(p.rules.currentPlayerId), give) - 1.0)
  }

  /** How much the received resource is wanted: one plus its scarcity. */
  function Need(p: CPUPlayer, get: Resource): real {
    1.0 + Rate(p.rules.boardResourceScarcity, get)
  }

  /** A bank trade: minus the penalty when an opponent would win from it, its weighted value otherwise. */
  function BankTradeValue(p: CPUPlayer, give: Resource, get: Resource, rate: int): real {
    if EnablesOpponentWin(p.rules, give, get, rate) then -p.weights.tradeEnableOpponentWinPenalty
    else TradeValue(p.weights, TradeProgress(p, give, get, rate), Excess(p, give),
                    Rate(p.rules.boardResourceScarcity, give), Need(p, get), Pm(p, BankTrade))
  }

  /** A robber move: base value, plus the leader bonus when it steals from someone. */
  function RobberValue(p: CPUPlayer, stealFrom: Option<int>): real {
    var block := if stealFrom.Some? then p.weights.blockLeaderBonus else 0.0;
    (p.weights.baseValueRobberBlock + block) * Pm(p, MoveRobber)
  }

  /** score_action: the heuristic value of an action, a KeyError when a params key it reads is missing. */
  function Score(p: CPUPlayer, a: CPUAction): (s: Result<real>)
    ensures s.Success? <==> ParamsFit(a)
  {
    match a.actionType {
      case BuildSettlement =>
        if a.params.VertexParams? then Success(SettlementValue(p, a.params.vertexId)) else Failure("KeyError")
      case BuildCity =>
        if a.params.VertexParams? then Success(CityValue(p, a.params.vertexId)) else Failure("KeyError")
      case BuildRoad =>
        if a.params.EdgeParams? then Success(RoadValue(p, a.params.edgeId)) else Failure("KeyError")
      case BuyDevCard =>
        Success(DevValue(p))
      case BankTrade =>
        if a.params.TradeParams? then Success(BankTradeValue(p, a.params.give, a.params.get, a.params.rate))
        else Failure("KeyError")
      case MoveRobber =>
        if a.params.RobberParams? then Success(RobberValue(p, a.params.stealFrom)) else Failure("KeyError")
      case Pass =>
        Success(-p.weights.passSmallPenalty)
      case PlayerTrade =>
        Success(0.0)
    }
  }

  /** score_action as written: the opponents are asked one by one, and the first that would win ends the scoring. */
  method ScoreAction(p: CPUPlayer, a: CPUAction) returns (s: Result<real>)
    ensures s == Score(p, a)
  {
    var w := p.weights;
    var r := p.rules;
    var pid := r.currentPlayerId;
    var pm := PhaseMultiplier(w, r.gamePhase, a.actionType);
    match a.actionType {
      case BankTrade =>
        if !a.params.TradeParams? {
          return Failure("KeyError");
        }
        var give, get, rate := a.params.give, a.params.get, a.params.rate;
        for i := 0 to |r.opponents|
          invariant forall k :: 0 <= k < i ==> !r.wouldTradeEnableOpponentWin(r.opponents[k], give, get, rate)
        {
          if r.wouldTradeEnableOpponentWin(r.opponents[i], give, get, rate) {
            assert EnablesOpponentWin(r, give, get, rate);
            return Success(-w.tradeEnableOpponentWinPenalty);
          }
        }
        assert !EnablesOpponentWin(r, give, get, rate);
        var profile := r.resourceProductionProfile(pid);
        var scarcity := r.boardResourceScarcity;
        var excess := MaxReal(0.0, Rate(profile, give) - 1.0);
        var need := 1.0 + Rate(scarcity, get);
        var progress := TradeProgressTowardsBuilds(p, give, get, rate);
        assert excess == Excess(p, give) && need == Need(p, get) && pm == Pm(p, BankTrade);
        s := Success(TradeValue(w, progress, excess, Rate(scarcity, give), need, pm));
        assert s == Success(BankTradeValue(p, give, get, rate));
      case _ =>
        s := Score(p, a);
    }
  }

  /** A pass always scores the small penalty, whatever the phase and params. */
  lemma PassScore(p: CPUPlayer, a: CPUAction)
    requires a.actionType == Pass
    ensures Score(p, a) == Success(-p.weights.passSmallPenalty)
  {
  }

  /** A trade that would let an opponent win scores exactly minus the penalty, whatever else holds. */
  lemma WinEnablingTradeScore(p: CPUPlayer, a: CPUAction)
    requires a.actionType == BankTrade && a.params.TradeParams?
    requires EnablesOpponentWin(p.rules, a.params.give, a.params.get, a.params.rate)
    ensures Score(p, a) == Success(-p.weights.tradeEnableOpponentWinPenalty)
  {
  }

  /**
   * Of two settlement spots alike in pips and blocking value, the one touching
   * at least two distinct resources outscores the other by exactly the phase-
   * weighted diversity bonus; repeats of one resource do not count.
   */
  lemma DiversityBonus(p: CPUPlayer, v: int, u: int)
    requires p.rules.vertexPip(v) == p.rules.vertexPip(u)
    requires p.rules.settlementBlocksOpponentValue(v) == p.rules.settlementBlocksOpponentValue(u)
    requires |Kinds(p.rules.vertexResourceSet(v))| >= 2 > |Kinds(p.rules.vertexResourceSet(u))|
    ensures Score(p, SettleAction(v)).value == Score(p, SettleAction(u)).value
      + p.weights.resourceDiversityBonus * PhaseMultiplier(p.weights, p.rules.gamePhase, BuildSettlement)
  {
    var w := p.weights;
    var r := p.rules;
    var pm := PhaseMultiplier(w, r.gamePhase, BuildSettlement);
    var base := w.baseValueSettlement + r.vertexPip(v) * w.pipValuePerPoint;
    var block := r.settlementBlocksOpponentValue(v) * w.blockLeaderBonus;
    assert Score(p, SettleAction(v)).value == (base + w.resourceDiversityBonus + block) * pm;
    assert Score(p, SettleAction(u)).value == (base + 0.0 + block) * pm;
  }

  /** A list naming one resource over and over has one kind, so it earns no diversity bonus. */
  lemma RepeatsAreOneKind(rs: seq<Resource>, r: Resource)
    requires |rs| > 0 && forall i :: 0 <= i < |rs| ==> rs[i] == r
    ensures Kinds(rs) == {r}
  {
    assert rs[0] in rs;
  }

  /** A robber move that steals outscores one that does not by the phase-weighted leader bonus. */
  lemma StealBonus(p: CPUPlayer, h: int, g: int, victim: int)
    ensures Score(p, RobberAction((h, Some(victim)))).value == Score(p, RobberAction((g, None))).value
      + p.weights.blockLeaderBonus * PhaseMultiplier(p.weights, p.rules.gamePhase, MoveRobber)
  {
    var w := p.weights;
    var pm := PhaseMultiplier(w, p.rules.gamePhase, MoveRobber);
    assert Score(p, RobberAction((h, Some(victim)))).value == (w.baseValueRobberBlock + w.blockLeaderBonus) * pm;
    assert Score(p, RobberAction((g, None))).value == (w.baseValueRobberBlock + 0.0) * pm;
  }

  /** With positive dials, the higher-pip city upgrade scores higher. */
  lemma CityPrefersHighPip(p: CPUPlayer, v: int, u: int)
    requires p.weights.cityOnHighPipBonusFactor > 0.0
    requires PhaseMultiplier(p.weights, p.rules.gamePhase, BuildCity) > 0.0
    requires p.rules.vertexPip(v) > p.rules.vertexPip(u)
    ensures Score(p, CityAction(v)).value > Score(p, CityAction(u)).value
  {
    var w := p.weights;
    var r := p.rules;
    var pm := PhaseMultiplier(w, r.gamePhase, BuildCity);
    var dv := r.vertexPip(v) * w.cityOnHighPipBonusFactor;
    var du := r.vertexPip(u) * w.cityOnHighPipBonusFactor;
    assert dv - du == (r.vertexPip(v) - r.vertexPip(u)) * w.cityOnHighPipBonusFactor;
    assert dv > du;
    assert (w.baseValueCity + dv) * pm - (w.baseValueCity + du) * pm == (dv - du) * pm;
  }

  /** With positive dials, the road that does more for the longest road scores higher, all else equal. */
  lemma RoadPrefersLongest(p: CPUPlayer, e: int, f: int)
    requires p.weights.longestRoadPush > 0.0
    requires PhaseMultiplier(p.weights, p.rules.gamePhase, BuildRoad) > 0.0
    requires p.rules.roadExpandsTowardsValue(e) == p.rules.roadExpandsTowardsValue(f)
    requires p.rules.roadContributesLongest(p.rules.currentPlayerId, e) > p.rules.roadContributesLongest(p.rules.currentPlayerId, f)
    ensures Score(p, RoadAction(e)).value > Score(p, RoadAction(f)).value
  {
    var w := p.weights;
    var r := p.rules;
    var pm := PhaseMultiplier(w, r.gamePhase, BuildRoad);
    var le := r.roadContributesLongest(r.currentPlayerId, e) * w.longestRoadPush;
    var lf := r.roadContributesLongest(r.currentPlayerId, f) * w.longestRoadPush;
    assert le - lf == (r.roadContributesLongest(r.currentPlayerId, e) - r.roadContributesLongest(r.currentPlayerId, f)) * w.longestRoadPush;
    var base := w.baseValueRoad + r.roadExpandsTowardsValue(e);
    assert (base + le) * pm - (base + lf) * pm == (le - lf) * pm;
  }

  /**
   * With the default dials in the early phase, any settlement spot with
   * non-negative pips and blocking value beats buying a development card.
   */
  lemma EarlySettlementBeatsDevCard(p: CPUPlayer, v: int)
    requires p.weights == DefaultWeights && p.rules.gamePhase == "early"
    requires p.rules.vertexPip(v) >= 0.0 && p.rules.settlementBlocksOpponentValue(v) >= 0.0
    ensures Score(p, SettleAction(v)).value > Score(p, DevAction).value
  {
    assert Score(p, DevAction).value == 5.6;
    assert Score(p, SettleAction(v)).value >= 16.0;
  }

  /**
   * Of two settlement spots alike in diversity class and blocking value, the
   * one with more pips scores higher under positive dials.
   */
  lemma SettlementPrefersHighPip(p: CPUPlayer, v: int, u: int)
    requires p.weights.pipValuePerPoint > 0.0
    requires PhaseMultiplier(p.weights, p.rules.gamePhase, BuildSettlement) > 0.0
    requires p.rules.vertexPip(v) > p.rules.vertexPip(u)
    requires (|Kinds(p.rules.vertexResourceSet(v))| >= 2) == (|Kinds(p.rules.vertexResourceSet(u))| >= 2)
    requires p.rules.settlementBlocksOpponentValue(v) == p.rules.settlementBlocksOpponentValue(u)
    ensures Score(p, SettleAction(v)).value > Score(p, SettleAction(u)).value
  {
  }

  /**
   * With the default dials in the middle phase, a city upgrade on a spot with
   * non-negative pips (at least 20) beats buying a development card (7.84).
   */
  lemma MidCityBeatsDevCard(p: CPUPlayer, v: int)
    requires p.weights == DefaultWeights && p.rules.gamePhase == "mid"
    requires p.rules.vertexPip(v) >= 0.0
    ensures Score(p, CityAction(v)).value > Score(p, DevAction).value
  {
  }

  /**
   * With the default dials in the late phase, a robber move that steals
   * (14.95) beats a road whose lead and longest-road pull come to less than 4.
   */
  lemma LateStealBeatsMinorRoad(p: CPUPlayer, h: int, victim: int, e: int)
    requires p.weights == DefaultWeights && p.rules.gamePhase == "late"
    requires p.rules.roadExpandsTowardsValue(e) + p.rules.roadContributesLongest(p.rules.currentPlayerId, e) * 1.6 < 4.0
    ensures Score(p, RobberAction((h, Some(victim)))).value > Score(p, RoadAction(e)).value
  {
  }

  // ---------------------------------------------------------------------------
  // The choice
  // ---------------------------------------------------------------------------

  /** Every generated candidate carries the params its type reads. */
  lemma CandidatesFit(p: CPUPlayer)
    ensures forall i :: 0 <= i < |Candidates(p)| ==> ParamsFit(Candidates(p)[i])
  {
    CandidateLayout(p);
    var r := p.rules;
    var pid := r.currentPlayerId;
    var cs := Candidates(p);
    var s := Each(r.legalSettlementVertices(pid), SettleAction);
    var e := Each(r.legalRoadEdges(pid), RoadAction);
    var c := Each(r.upgradeableVertices(pid), CityAction);
    var d := if r.canBuyDevCard(pid) then [DevAction] else [];
    var t := Each(r.bankTradeOptions(pid), TradeAction);
    var m := Each(r.robberMoveOptions(pid), RobberAction);
    var all := s + e + c + d + t + m + [PassAction];
    assert cs == all;
    forall i | 0 <= i < |cs|
      ensures ParamsFit(cs[i])
    {
      var a := cs[i];
      assert a in all;
      assert a in s || a in e || a in c || a in d || a in t || a in m || a == PassAction;
    }
  }

  /** An action with its score written in. */
  function WithScore(p: CPUPlayer, a: CPUAction): CPUAction
    requires ParamsFit(a)
  {
    a.(score := Score(p, a).value)
  }

  /** The actions with their scores written in. */
  function Scored(p: CPUPlayer, acts: seq<CPUAction>): (pq: seq<CPUAction>)
    requires forall i :: 0 <= i < |acts| ==> ParamsFit(acts[i])
    ensures |pq| == |acts|
    ensures forall i :: 0 <= i < |acts| ==> pq[i] == WithScore(p, acts[i])
  {
    seq(|acts|, i requires 0 <= i < |acts| => WithScore(p, acts[i]))
  }

  /**
   * The root of a queue filled by pushes in list order: a pushed action rises
   * to the root only when it comes strictly before it, so the root is the
   * first action of highest score.
   */
  function RootIndex(pq: seq<CPUAction>): (k: nat)
    requires pq != []
    ensures k < |pq|
    ensures forall i :: 0 <= i < |pq| ==> pq[i].score <= pq[k].score
    ensures forall i :: 0 <= i < k ==> pq[i].score < pq[k].score
    decreases |pq|
  {
    if |pq| == 1 then 0
    else
      var k := RootIndex(pq[..|pq| - 1]);
      BeforeIffHigherScore(pq[|pq| - 1], pq[k]);
      if Before(pq[|pq| - 1], pq[k]) then |pq| - 1 else k
  }

  const NoActions := CPUAction(0.0, Pass, NoParams, "No actions")

  /** The queue choose_action fills: every candidate, in generation order, with its score. */
  function Queue(p: CPUPlayer): (pq: seq<CPUAction>)
    ensures |pq| == |Candidates(p)|
    ensures forall i :: 0 <= i < |pq| ==> ParamsFit(Candidates(p)[i]) && pq[i] == WithScore(p, Candidates(p)[i])
  {
    CandidatesFit(p);
    Scored(p, Candidates(p))
  }

  /** The action choose_action returns: the root of the queue of scored candidates. */
  function Choice(p: CPUPlayer): CPUAction {
    var pq := Queue(p);
    if pq == [] then NoActions else pq[RootIndex(pq)]
  }

  /**
   * heapq.heappush as far as the root is concerned: the new action becomes the
   * root only when it comes strictly before the old one.
   */
  method Push(pq: seq<CPUAction>, root: nat, a: CPUAction) returns (pq': seq<CPUAction>, root': nat)
    requires pq != [] ==> root == RootIndex(pq)
    ensures pq' == pq + [a] && root' == RootIndex(pq')
  {
    root' := root;
    if pq == [] || Before(a, pq[root]) {
      root' := |pq|;
    }
    pq' := pq + [a];
    assert pq'[..|pq|] == pq;
  }

  /** One round of choose_action's loop: score the action, then push it. */
  method ScoreAndPush(p: CPUPlayer, pq: seq<CPUAction>, root: nat, a: CPUAction) returns (pq': seq<CPUAction>, root': nat)
    requires ParamsFit(a)
    requires pq != [] ==> root == RootIndex(pq)
    ensures pq' == pq + [WithScore(p, a)] && root' == RootIndex(pq')
  {
    var s := ScoreAction(p, a);
    pq', root' := Push(pq, root, a.(score := s.value));
  }

  /** choose_action's loop: every action scored and pushed, in list order. */
  method FillQueue(p: CPUPlayer, actions: seq<CPUAction>) returns (pq: seq<CPUAction>, root: nat)
    requires forall k :: 0 <= k < |actions| ==> ParamsFit(actions[k])
    ensures pq == Scored(p, actions)
    ensures pq != [] ==> root == RootIndex(pq)
  {
    pq, root := [], 0;
    for i := 0 to |actions|
      invariant pq == Scored(p, actions[..i])
      invariant pq != [] ==> root == RootIndex(pq)
    {
      assert actions[..i + 1] == actions[..i] + [actions[i]];
      ScoredSnoc(p, actions[..i], actions[i]);
      pq, root := ScoreAndPush(p, pq, root, actions[i]);
    }
    assert actions[..|actions|] == actions;
  }

  /** Scoring one more action appends its scored copy. */
  lemma ScoredSnoc(p: CPUPlayer, acts: seq<CPUAction>, a: CPUAction)
    requires forall k :: 0 <= k < |acts| ==> ParamsFit(acts[k])
    requires ParamsFit(a)
    ensures forall k :: 0 <= k < |acts + [a]| ==> ParamsFit((acts + [a])[k])
    ensures Scored(p, acts + [a]) == Scored(p, acts) + [WithScore(p, a)]
  {
  }

  /** choose_action: score every candidate, push it, and pop the root. */
  method ChooseAction(p: CPUPlayer) returns (best: CPUAction)
    ensures best == Choice(p)
  {
    var actions := GenerateCandidateActions(p);
    CandidatesFit(p);
    var pq, root := FillQueue(p, actions);
    if pq == [] {
      return NoActions;
    }
    best := pq[root];
  }

  /**
   * The queue is never empty, so the "No actions" fallback is never taken; the
   * chosen action is one of the scored candidates, of highest score, and the
   * earliest generated among those that tie.
   */
  lemma ChoiceIsFirstBest(p: CPUPlayer)
    ensures Queue(p) != []
    ensures var pq := Queue(p);
      exists k :: (0 <= k < |pq| && Choice(p) == pq[k]
        && (forall i :: 0 <= i < |pq| ==> pq[i].score <= pq[k].score)
        && (forall i :: 0 <= i < k ==> pq[i].score < pq[k].score))
  {
    CandidateLayout(p);
    var pq := Queue(p);
    var k := RootIndex(pq);
    assert Choice(p) == pq[k];
  }

  /** When the rules allow nothing, the pass is chosen, at its small penalty. */
  lemma PassWhenNothingElse(p: CPUPlayer)
    requires var r := p.rules; var pid := r.currentPlayerId;
      && r.legalSettlementVertices(pid) == [] && r.legalRoadEdges(pid) == [] && r.upgradeableVertices(pid) == []
      && !r.canBuyDevCard(pid) && r.bankTradeOptions(pid) == [] && r.robberMoveOptions(pid) == []
    ensures Choice(p) == PassAction.(score := -p.weights.passSmallPenalty)
  {
    assert Candidates(p) == [PassAction];
    PassScore(p, PassAction);
  }

  /** As long as passing costs less than the win penalty, a trade that lets an opponent win is never chosen. */
  lemma WinEnablingTradeNeverChosen(p: CPUPlayer)
    requires p.weights.passSmallPenalty < p.weights.tradeEnableOpponentWinPenalty
    ensures var c := Choice(p);
      !(c.actionType == BankTrade && c.params.TradeParams?
        && EnablesOpponentWin(p.rules, c.params.give, c.params.get, c.params.rate))
  {
    CandidateLayout(p);
    var cs := Candidates(p);
    var pq := Queue(p);
    var k := RootIndex(pq);
    var last := |pq| - 1;
    PassScore(p, cs[last]);
    assert pq[last].score == -p.weights.passSmallPenalty;
    var c := Choice(p);
    assert c == pq[k] && c.score >= pq[last].score;
    if c.actionType == BankTrade && c.params.TradeParams? && EnablesOpponentWin(p.rules, c.params.give, c.params.get, c.params.rate) {
      assert c == cs[k].(score := Score(p, cs[k]).value);
      WinEnablingTradeScore(p, cs[k]);
      assert false;
    }
  }

  /** When some candidate scores above the pass penalty, the pass is not chosen. */
  lemma PassNotChosenWhenUseful(p: CPUPlayer, a: CPUAction)
    requires a in Candidates(p) && ParamsFit(a) && Score(p, a).value > -p.weights.passSmallPenalty
    ensures Choice(p).actionType != Pass
  {
    CandidateLayout(p);
    var cs := Candidates(p);
    var pq := Queue(p);
    var k := RootIndex(pq);
    var j :| 0 <= j < |cs| && cs[j] == a;
    assert pq[j].score > -p.weights.passSmallPenalty;
    PassScore(p, cs[|cs| - 1]);
    assert pq[|cs| - 1].score == -p.weights.passSmallPenalty;
    assert k != |cs| - 1;
    assert Choice(p) == pq[k] && pq[k].actionType == cs[k].actionType;
  }
}
