/**
 * The weighted rarity roll shared by pet summoning and artifact forging: a
 * draw in [0, 100) walks the rarities common, rare, epic, legendary, mythic
 * with weights 50, 30, 15, 4, 1 and takes the first whose cumulative weight
 * reaches the draw.
 */
module RarityRoll {
  import opened GameTypes

  const Rarities: seq<Rarity> := [Common, Rare, Epic, Legendary, Mythic]
  const Weights: seq<real> := [50.0, 30.0, 15.0, 4.0, 1.0]

  /** The sum of the first n weights. */
  function Cumulative(n: nat): real
    requires n <= |Weights|
  {
    if n == 0 then 0.0 else Cumulative(n - 1) + Weights[n - 1]
  }

  /**
   * The rarity as a closed form over the cumulative bounds 50, 80, 95, 99
   * and 100. A draw above 100, which `Math.random() * 100` never produces,
   * keeps the initial `common`.
   */
  function RarityFor(draw: real): Rarity {
    if draw <= 50.0 then Common
    else if draw <= 80.0 then Rare
    else if draw <= 95.0 then Epic
    else if draw <= 99.0 then Legendary
    else if draw <= 100.0 then Mythic
    else Common
  }

  /** The `for` loop with its running cumulative weight and `break`. */
  method PickRarity(draw: real) returns (selected: Rarity)
    ensures selected == RarityFor(draw)
  {
    CumulativeValues();
    selected := Common;
    var cumulative := 0.0;
    var i := 0;
    while i < |Rarities|
      invariant 0 <= i <= |Rarities|
      invariant cumulative == Cumulative(i)
      invariant i > 0 ==> draw > cumulative
      invariant selected == Common
    {
      cumulative := cumulative + Weights[i];
      if draw <= cumulative {
        selected := Rarities[i];
        break;
      }
      i := i + 1;
    }
  }

  /** The rarity as the handlers write it into names and messages. */
  function RarityName(r: Rarity): string {
    match r
    case Common => "common"
    case Rare => "rare"
    case Epic => "epic"
    case Legendary => "legendary"
    case Mythic => "mythic"
  }

  /** The cumulative weights are 0, 50, 80, 95, 99 and 100. */
  lemma CumulativeValues()
    ensures Cumulative(0) == 0.0 && Cumulative(1) == 50.0 && Cumulative(2) == 80.0
    ensures Cumulative(3) == 95.0 && Cumulative(4) == 99.0 && Cumulative(5) == 100.0
  {
    assert Cumulative(1) == 50.0;
    assert Cumulative(2) == 80.0;
    assert Cumulative(3) == 95.0;
    assert Cumulative(4) == 99.0;
  }

  /**
   * The bands a draw in [0, 100) falls into. Their widths, 50, 30, 15, 4 and
   * 1, are the weights, so a uniform draw yields the rarities with those
   * percentages.
   */
  lemma RarityBands(draw: real)
    requires 0.0 <= draw < 100.0
    ensures RarityFor(draw) == Common <==> draw <= 50.0
    ensures RarityFor(draw) == Rare <==> 50.0 < draw <= 80.0
    ensures RarityFor(draw) == Epic <==> 80.0 < draw <= 95.0
    ensures RarityFor(draw) == Legendary <==> 95.0 < draw <= 99.0
    ensures RarityFor(draw) == Mythic <==> 99.0 < draw
  {
  }

  /** Band i is bounded by the cumulative weights before and after it. */
  lemma BandsAreCumulativeWeights(i: nat, draw: real)
    requires i < |Rarities|
    requires Cumulative(i) < draw <= Cumulative(i + 1)
    ensures RarityFor(draw) == Rarities[i]
  {
    CumulativeValues();
  }
}
