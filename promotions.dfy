/** The promotion resolvers: how a unit's movement promotions change the cost of
    entering a plot. The multiplier form and the adder form are used together when
    MOD_SANE_UNIT_MOVEMENT_COST is off; the combined change form replaces them when
    it is on. Each resolver takes the first condition that matches. */
module Promotions {
  import opened MovementTypes

  // The conditions the resolvers test, in the order the source tests them.

  predicate HillsDoubleOn(u: MovePromotions, p: Plot) {
    u.hillsDoubleMove && p.isHills
  }

  predicate HillsHalfOn(rules: Rules, u: MovePromotions, p: Plot) {
    rules.terrainHill in u.terrainHalfMove && p.isHills
  }

  predicate MountainsDoubleOn(u: MovePromotions, p: Plot) {
    u.mountainsDoubleMove && p.isMountain
  }

  predicate DoubleMoveOn(u: MovePromotions, p: Plot) {
    p.terrain in u.terrainDoubleMove || p.feature in u.featureDoubleMove
  }

  predicate HalfMoveOn(u: MovePromotions, p: Plot) {
    p.terrain in u.terrainHalfMove || p.feature in u.featureHalfMove
  }

  predicate HillsExtraOn(rules: Rules, u: MovePromotions, p: Plot) {
    rules.terrainHill in u.terrainExtraMove && p.isHills
  }

  /** The conditions the change form reads as "faster": every speed condition except
      the generic half move. */
  predicate FasterOn(rules: Rules, u: MovePromotions, p: Plot) {
    HillsDoubleOn(u, p) || HillsHalfOn(rules, u, p) || MountainsDoubleOn(u, p) || DoubleMoveOn(u, p)
  }

  /** No extra-move count is negative. */
  predicate ExtraMoveCountsNonNegative(u: MovePromotions) {
    && (forall t :: t in u.terrainExtraMove ==> u.terrainExtraMove[t] >= 0)
    && (forall f :: f in u.featureExtraMove ==> u.featureExtraMove[f] >= 0)
  }

  /** Which speed condition matches first, shared by the multiplier and change forms. */
  datatype SpeedRule = HillsDouble | HillsHalf | MountainsDouble | TerrainOrFeatureDouble
                     | TerrainOrFeatureHalf | NoSpeedRule

  function MatchSpeedRule(rules: Rules, u: MovePromotions, p: Plot): SpeedRule {
    if HillsDoubleOn(u, p) then HillsDouble
    else if HillsHalfOn(rules, u, p) then HillsHalf
    else if MountainsDoubleOn(u, p) then MountainsDouble
    else if DoubleMoveOn(u, p) then TerrainOrFeatureDouble
    else if HalfMoveOn(u, p) then TerrainOrFeatureHalf
    else NoSpeedRule
  }

  /** The extra-move count of the first extra-move condition that matches (hills,
      then the plot's terrain, then its feature), or 0 when none does. */
  function ExtraMoveCount(rules: Rules, u: MovePromotions, p: Plot): int {
    if HillsExtraOn(rules, u, p) then u.terrainExtraMove[rules.terrainHill]
    else if p.terrain in u.terrainExtraMove then u.terrainExtraMove[p.terrain]
    else if p.feature in u.featureExtraMove then u.featureExtraMove[p.feature]
    else 0
  }

  /** GetMovementCostMultiplierFromPromotions: half a move denominator for a
      double-move condition, two for a half-move condition, one otherwise, with the
      first matching condition deciding. */
  function MultiplierFromPromotions(rules: Rules, u: MovePromotions, p: Plot): (r: int)
    ensures r == rules.moveDenominator / 2 || r == rules.moveDenominator || r == 2 * rules.moveDenominator
    ensures r == rules.moveDenominator / 2 <==>
      HillsDoubleOn(u, p) || (!HillsHalfOn(rules, u, p) && (MountainsDoubleOn(u, p) || DoubleMoveOn(u, p)))
    ensures r == 2 * rules.moveDenominator <==>
      !HillsDoubleOn(u, p) &&
      (HillsHalfOn(rules, u, p) || (!MountainsDoubleOn(u, p) && !DoubleMoveOn(u, p) && HalfMoveOn(u, p)))
    ensures r == rules.moveDenominator <==>
      !HillsDoubleOn(u, p) && !HillsHalfOn(rules, u, p) && !MountainsDoubleOn(u, p) &&
      !DoubleMoveOn(u, p) && !HalfMoveOn(u, p)
  {
    var d := rules.moveDenominator;
    match MatchSpeedRule(rules, u, p)
    case HillsDouble => d / 2
    case HillsHalf => d * 2
    case MountainsDouble => d / 2
    case TerrainOrFeatureDouble => d / 2
    case TerrainOrFeatureHalf => d * 2
    case NoSpeedRule => d
  }

  /** GetMovementCostAdderFromPromotions: a whole number of moves, the count of at
      most one extra-move condition, and nothing when none matches. */
  function AdderFromPromotions(rules: Rules, u: MovePromotions, p: Plot): (r: int)
    ensures r % rules.moveDenominator == 0
    ensures ExtraMoveCountsNonNegative(u) ==> r >= 0
    ensures HillsExtraOn(rules, u, p) ==>
      r == rules.moveDenominator * u.terrainExtraMove[rules.terrainHill]
    ensures !HillsExtraOn(rules, u, p) && p.terrain in u.terrainExtraMove ==>
      r == rules.moveDenominator * u.terrainExtraMove[p.terrain]
    ensures !HillsExtraOn(rules, u, p) && p.terrain !in u.terrainExtraMove ==>
      r == if p.feature in u.featureExtraMove
           then rules.moveDenominator * u.featureExtraMove[p.feature]
           else 0
  {
    MultipleHasNoRemainder(rules.moveDenominator, ExtraMoveCount(rules, u, p));
    rules.moveDenominator * ExtraMoveCount(rules, u, p)
  }

  /** GetMovementCostChangeFromPromotions: -1 ("ignore terrain cost") when a faster
      condition matches; otherwise one move for a half-move condition plus the adder. */
  function ChangeFromPromotions(rules: Rules, u: MovePromotions, p: Plot): (r: int)
    ensures FasterOn(rules, u, p) ==> r == -1
    ensures !FasterOn(rules, u, p) ==>
      r == (if HalfMoveOn(u, p) then rules.moveDenominator else 0) + AdderFromPromotions(rules, u, p)
    ensures ExtraMoveCountsNonNegative(u) ==> (r == -1 <==> FasterOn(rules, u, p))
  {
    var rule := MatchSpeedRule(rules, u, p);
    if rule != TerrainOrFeatureHalf && rule != NoSpeedRule then -1
    else
      var slower := if rule == TerrainOrFeatureHalf then rules.moveDenominator else 0;
      slower + rules.moveDenominator * ExtraMoveCount(rules, u, p)
  }

  /** Hills double move on a hill wins over any other trait the unit has there. */
  lemma HillsDoubleMoveTakesPriority(rules: Rules, u: MovePromotions, v: MovePromotions, p: Plot)
    requires HillsDoubleOn(u, p) && HillsDoubleOn(v, p)
    ensures MultiplierFromPromotions(rules, u, p) == MultiplierFromPromotions(rules, v, p) == rules.moveDenominator / 2
    ensures ChangeFromPromotions(rules, u, p) == ChangeFromPromotions(rules, v, p) == -1
  {
  }

  /** Whatever halves the cost in the multiplier form makes the change form ignore
      terrain cost. */
  lemma HalvingMeansIgnoreTerrain(rules: Rules, u: MovePromotions, p: Plot)
    requires MultiplierFromPromotions(rules, u, p) == rules.moveDenominator / 2
    ensures ChangeFromPromotions(rules, u, p) == -1
  {
  }

  /** With no speed condition the change form is exactly the adder. */
  lemma NeutralMultiplierMeansAdder(rules: Rules, u: MovePromotions, p: Plot)
    requires MultiplierFromPromotions(rules, u, p) == rules.moveDenominator
    ensures ChangeFromPromotions(rules, u, p) == AdderFromPromotions(rules, u, p)
  {
  }

  /** A generic half move doubles the cost in the multiplier form and adds one move
      in the change form. */
  lemma HalfMoveMeansOneExtraMove(rules: Rules, u: MovePromotions, p: Plot)
    requires MultiplierFromPromotions(rules, u, p) == 2 * rules.moveDenominator
    requires !HillsHalfOn(rules, u, p)
    ensures ChangeFromPromotions(rules, u, p) == rules.moveDenominator + AdderFromPromotions(rules, u, p)
  {
  }

  /** The two forms disagree on a half move on hills: the multiplier form doubles
      the cost, the change form reads it as a faster condition. */
  lemma HillsHalfMoveFormsDisagree(rules: Rules, u: MovePromotions, p: Plot)
    requires !HillsDoubleOn(u, p) && HillsHalfOn(rules, u, p)
    ensures MultiplierFromPromotions(rules, u, p) == 2 * rules.moveDenominator
    ensures ChangeFromPromotions(rules, u, p) == -1
  {
  }
}
