/** The resource kinds of model/enums.py. */
module Enums {
  datatype Resource = Brick | Lumber | Ore | Grain | Wool | Desert

  /** The five kinds a player can hold (every kind except the desert). */
  const ProducingResources: set<Resource> := {Brick, Lumber, Ore, Grain, Wool}

  /** A kind is held by players exactly when it is not the desert. */
  lemma ProducingIffNotDesert(r: Resource)
    ensures r in ProducingResources <==> r != Desert
  {
  }
}
