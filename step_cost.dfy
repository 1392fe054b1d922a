/** GetCostsForMove: the cost, in move-denominator units, of one step of a unit from
    a plot to an adjacent plot, before zone of control and the clamps of the entry
    points. A fixed chain of cases is tried in order and the first that applies
    decides; INT_MAX means the step ends the unit's turn or is not possible. */
module StepCost {
  import opened MovementTypes
  import opened Promotions

  /** The step crosses a river (both plots touch one and the origin has a river
      edge in the direction of the step). */
  predicate RiverCrossing(from: Plot, to: Plot, dir: Direction) {
    from.riverCrossingCount > 0 && to.riverCrossingCount > 0 && dir in from.riverCrossings
  }

  /** A human player's unit stepping into a plot its team has not revealed. */
  predicate HiddenFromHuman(m: Mover, to: Plot) {
    m.unit.isHuman && !to.revealed
  }

  // ----- Routes, real and fake -----

  predicate MovingAlongRiver(from: Plot, to: Plot, dir: Direction) {
    to.isRiver && from.isRiver && !RiverCrossing(from, to, dir)
  }

  predicate IsWoodland(rules: Rules, feature: int) {
    feature == rules.featureForest || feature == rules.featureJungle
  }

  /** The woodland bonus needs the destination to belong to the unit's team unless
      MOD_BALANCE_VP is on; both ends of the step test the destination's team. */
  predicate WoodlandOwnershipHolds(rules: Rules, m: Mover, to: Plot) {
    rules.balanceVP || to.team == m.team.id
  }

  predicate FakeRouteFrom(rules: Rules, m: Mover, from: Plot, to: Plot, dir: Direction) {
    || (m.traits.riverMovementBonus && MovingAlongRiver(from, to, dir))
    || (!rules.saneUnitMovementCost && m.traits.woodlandMovementBonus &&
        IsWoodland(rules, from.feature) && WoodlandOwnershipHolds(rules, m, to))
  }

  predicate FakeRouteTo(rules: Rules, m: Mover, from: Plot, to: Plot, dir: Direction) {
    || (m.traits.riverMovementBonus && MovingAlongRiver(from, to, dir))
    || (!rules.saneUnitMovementCost && m.traits.woodlandMovementBonus &&
        IsWoodland(rules, to.feature) && WoodlandOwnershipHolds(rules, m, to))
  }

  /** The route branch: a non-hovering unit with a route (real or fake) at both ends,
      and any river crossed is bridged or the unit is amphibious. */
  predicate RouteApplies(rules: Rules, m: Mover, from: Plot, to: Plot, dir: Direction) {
    && !m.unit.hovering
    && (from.validRoute || FakeRouteFrom(rules, m, from, to, dir))
    && (to.validRoute || FakeRouteTo(rules, m, from, to, dir))
    && (!RiverCrossing(from, to, dir) || m.team.bridgeBuilding || m.unit.amphibious)
  }

  /** The route kind used at each end: a road where a fake route applies. */
  function RouteKindFrom(rules: Rules, m: Mover, from: Plot, to: Plot, dir: Direction): int {
    if FakeRouteFrom(rules, m, from, to, dir) then rules.routeRoad else from.route
  }

  function RouteKindTo(rules: Rules, m: Mover, from: Plot, to: Plot, dir: Direction): int {
    if FakeRouteTo(rules, m, from, to, dir) then rules.routeRoad else to.route
  }

  /** The cost of a step along routes: the smaller of the dearer end's variable cost
      (with the team's route change) and the dearer end's flat cost per base move. */
  function RouteStepCost(rules: Rules, team: TeamView, fromRoute: int, toRoute: int, baseMoves: int): (r: int)
    ensures r <= Lookup(rules.routeCost, fromRoute) + Lookup(team.routeChange, fromRoute) ||
            r <= Lookup(rules.routeCost, toRoute) + Lookup(team.routeChange, toRoute)
    ensures r <= Lookup(rules.routeFlatCost, fromRoute) * baseMoves ||
            r <= Lookup(rules.routeFlatCost, toRoute) * baseMoves
    ensures || r == Max(Lookup(rules.routeCost, fromRoute) + Lookup(team.routeChange, fromRoute),
                        Lookup(rules.routeCost, toRoute) + Lookup(team.routeChange, toRoute))
            || r == Max(Lookup(rules.routeFlatCost, fromRoute) * baseMoves,
                        Lookup(rules.routeFlatCost, toRoute) * baseMoves)
  {
    var variable := Max(Lookup(rules.routeCost, fromRoute) + Lookup(team.routeChange, fromRoute),
                        Lookup(rules.routeCost, toRoute) + Lookup(team.routeChange, toRoute));
    var flat := Max(Lookup(rules.routeFlatCost, fromRoute) * baseMoves,
                    Lookup(rules.routeFlatCost, toRoute) * baseMoves);
    Min(variable, flat)
  }

  /** A route step costs the same in both directions between the same route kinds. */
  lemma RouteStepCostSymmetric(rules: Rules, team: TeamView, a: int, b: int, baseMoves: int)
    ensures RouteStepCost(rules, team, a, b, baseMoves) == RouteStepCost(rules, team, b, a, baseMoves)
  {
  }

  /** The route cost of the step, None when the route branch does not fire. */
  function RouteCost(rules: Rules, m: Mover, from: Plot, to: Plot, dir: Direction): (r: Option<int>)
    ensures r.Some? <==> RouteApplies(rules, m, from, to, dir)
    ensures r.Some? ==> r.value == RouteStepCost(rules, m.team, RouteKindFrom(rules, m, from, to, dir),
                                                 RouteKindTo(rules, m, from, to, dir), m.unit.baseMoves)
  {
    if RouteApplies(rules, m, from, to, dir) then
      Some(RouteStepCost(rules, m.team, RouteKindFrom(rules, m, from, to, dir),
                         RouteKindTo(rules, m, from, to, dir), m.unit.baseMoves))
    else None
  }

  // ----- Embarkation -----

  /** Whether the step changes the unit's embark state, and which discounts apply. */
  datatype EmbarkTransition = NoStateChange | StateChange(free: bool, cheap: bool)

  /** The discounts of an embark-state change. Disembarking is cheap by the owner's
      trait or the unit's disembark promotion, embarking by the trait or the embark
      promotion; with the city switch a coastal city or passable improvement at the
      land end makes it free or cheap by team policy. */
  function Embarkation(rules: Rules, m: Mover, from: Plot, to: Plot): (t: EmbarkTransition)
    ensures t.StateChange? <==> m.unit.canEverEmbark && from.needsEmbarkation != to.needsEmbarkation
    ensures t.StateChange? && m.traits.embarkedToLandFlatCost ==> t.cheap
    ensures t.StateChange? && t.free ==> rules.embarkCityNoCost && m.team.cityNoEmbarkCost
    ensures t.StateChange? && !rules.embarkCityNoCost ==>
      !t.free &&
      (t.cheap <==> m.traits.embarkedToLandFlatCost ||
                    (if from.needsEmbarkation then m.unit.disembarkFlatCost else m.unit.embarkFlatCost))
    ensures t.StateChange? && rules.embarkCityNoCost ==>
      var landEnd := if from.needsEmbarkation then to else from;
      && (t.free <==> landEnd.coastalCityOrPassable && m.team.cityNoEmbarkCost)
      && (t.cheap <==> || m.traits.embarkedToLandFlatCost
                       || (if from.needsEmbarkation then m.unit.disembarkFlatCost else m.unit.embarkFlatCost)
                       || (landEnd.coastalCityOrPassable && !m.team.cityNoEmbarkCost && m.team.cityLessEmbarkCost))
  {
    if !m.unit.canEverEmbark then NoStateChange
    else if !to.needsEmbarkation && from.needsEmbarkation then
      var byCity := rules.embarkCityNoCost && to.coastalCityOrPassable;
      StateChange(byCity && m.team.cityNoEmbarkCost,
                  m.traits.embarkedToLandFlatCost || m.unit.disembarkFlatCost ||
                  (byCity && !m.team.cityNoEmbarkCost && m.team.cityLessEmbarkCost))
    else if to.needsEmbarkation && !from.needsEmbarkation then
      var byCity := rules.embarkCityNoCost && from.coastalCityOrPassable;
      StateChange(byCity && m.team.cityNoEmbarkCost,
                  m.traits.embarkedToLandFlatCost || m.unit.embarkFlatCost ||
                  (byCity && !m.team.cityNoEmbarkCost && m.team.cityLessEmbarkCost))
    else NoStateChange
  }

  /** The cost an embark-state change decides, None when the step goes on to the
      later cases (no change, or a discounted change of a unit carried as cargo). */
  function EmbarkCost(rules: Rules, m: Mover, t: EmbarkTransition): Option<int> {
    match t
    case NoStateChange => None
    case StateChange(free, cheap) =>
      if !(free || cheap) then Some(INT_MAX)
      else if free && !m.unit.isCargo then Some(rules.moveDenominator / 10)
      else if cheap && !m.unit.isCargo then Some(rules.moveDenominator)
      else None
  }

  // ----- Turn-ending obstacles -----

  /** A border obstacle of a third team that does not grant open borders. */
  predicate BorderBlocked(m: Mover, from: Plot, to: Plot) {
    && to.team != NO_TEAM && m.team.id != to.team && to.team != from.team
    && to.team !in m.team.openBordersFrom
    && (|| (to.ownerBorderObstacle && !to.isWater && m.unit.domain == Land)
        || (to.owningCity.Some? &&
            (|| (!to.isWater && m.unit.domain == Land && to.owningCity.value.borderObstacleLand > 0)
             || (to.isWater && to.owningCity.value.borderObstacleWater > 0 &&
                 (m.unit.domain == Sea || to.needsEmbarkation)))))
  }

  /** Rough ground ends the turn unless real routes join both plots. */
  predicate RoughEndsTurn(m: Mover, from: Plot, to: Plot) {
    to.isRoughGround && m.unit.roughTerrainEndsTurn && !(from.validRoute && to.validRoute)
  }

  /** A converting unit crossing the shoreline. */
  predicate ShoreConversion(m: Mover, from: Plot, to: Plot) {
    || (m.unit.domain == Sea && m.unit.convertUnit && !to.isWater && from.isWater)
    || (m.unit.domain == Land && m.unit.convertUnit && to.isWater && !from.isWater)
  }

  /** A city not at war with the unit's team counts as flat ground, unless an
      unbridged river is crossed (amphibious does not help here). */
  predicate CityAsFlat(m: Mover, from: Plot, to: Plot, dir: Direction) {
    to.isCity && to.team !in m.team.atWarWith && (!RiverCrossing(from, to, dir) || m.team.bridgeBuilding)
  }

  /** A land unit carried as cargo, with the flat-cost trait, landing from water on
      coastal land (only with the cargo-ships switch). */
  predicate CargoLanding(rules: Rules, m: Mover, from: Plot, to: Plot) {
    rules.cargoShips && m.unit.isCargo && m.unit.domain == Land &&
    m.traits.embarkedToLandFlatCost && to.coastalLand && from.isWater
  }

  // ----- The terrain and feature path -----

  /** The destination's feature cost, or its terrain cost when it has no feature. */
  function PlotBaseCost(rules: Rules, to: Plot): int {
    if to.feature == NO_FEATURE then
      (if to.terrain > NO_TERRAIN then Lookup(rules.terrainCost, to.terrain) else 0)
    else
      (if to.feature > NO_FEATURE then Lookup(rules.featureCost, to.feature) else 0)
  }

  /** Terrain cost is ignored by the unit itself, by an amphibious river crossing
      (MOD_BALANCE_CORE), or by the hills and mountain-pass traits. */
  predicate IgnoresTerrainCost(rules: Rules, m: Mover, to: Plot, riverCrossing: bool) {
    || m.unit.ignoreTerrainCost
    || (rules.balanceCore && m.unit.amphibious && riverCrossing)
    || (m.traits.fasterInHills && to.isHills)
    || (m.traits.mountainPass && to.isMountain)
  }

  /** The cost in whole moves before the discount: 1 when terrain cost is ignored
      (and a river crossing does not override that), otherwise the plot cost plus
      the hills/mountain surcharge and, for a land unit that is not amphibious, the
      river surcharge. */
  function RawTerrainCost(rules: Rules, m: Mover, to: Plot, riverCrossing: bool, ignore: bool): (r: int)
    ensures ignore && !riverCrossing ==> r == 1
    ensures ignore && riverCrossing ==>
      if m.unit.hovering || m.unit.amphibious || rules.ignoreTerrainCostIncludesRivers > 0 then r == 1
      else r == PlotBaseCost(rules, to)
                + (if to.isHills || to.isMountain then rules.hillsExtraMovement else 0)
                + (if m.unit.domain == Land then rules.riverExtraMovement else 0)
    ensures !ignore ==>
      r == PlotBaseCost(rules, to)
           + (if to.isHills || to.isMountain then rules.hillsExtraMovement else 0)
           + (if riverCrossing && !m.unit.amphibious && m.unit.domain == Land then rules.riverExtraMovement else 0)
  {
    if ignore && (!riverCrossing || m.unit.hovering || m.unit.amphibious || rules.ignoreTerrainCostIncludesRivers > 0) then 1
    else
      var base := PlotBaseCost(rules, to);
      var withHills := if to.isHills || to.isMountain then base + rules.hillsExtraMovement else base;
      if riverCrossing && !m.unit.amphibious && m.unit.domain == Land then withHills + rules.riverExtraMovement else withHills
  }

  /** The move discount, never taking a positive cost below one move. */
  function Discounted(cost: int, discount: int): (r: int)
    ensures cost > 0 ==> r >= 1 && r >= cost - discount
    ensures cost > 0 ==> r == 1 || r == cost - discount
    ensures cost > 0 && discount >= 0 ==> r <= cost
    ensures cost > 0 && discount <= 0 ==> r == cost - discount
    ensures cost <= 0 ==> r == cost
  {
    if cost > 0 then Max(1, cost - discount) else cost
  }

  /** The change-form value (MOD_SANE_UNIT_MOVEMENT_COST): the precomputed one or
      the resolver's. */
  function ChangeValue(rules: Rules, m: Mover, to: Plot, adder: Option<int>): int {
    adder.GetOr(ChangeFromPromotions(rules, m.unit.promotions, to))
  }

  /** The multiplier the terrain path applies when MOD_SANE_UNIT_MOVEMENT_COST is off. */
  function MultiplierValue(rules: Rules, m: Mover, to: Plot, multiplier: Option<int>): int {
    multiplier.GetOr(MultiplierFromPromotions(rules, m.unit.promotions, to))
  }

  /** The adder the terrain path applies: a negative change value turns into
      "ignore terrain cost" and adds nothing. */
  function AdderValue(rules: Rules, m: Mover, to: Plot, adder: Option<int>): int {
    if rules.saneUnitMovementCost then
      (var c := ChangeValue(rules, m, to, adder); if c < 0 then 0 else c)
    else adder.GetOr(AdderFromPromotions(rules, m.unit.promotions, to))
  }

  /** Whether the terrain path ignores terrain cost. */
  predicate TerrainIgnored(rules: Rules, m: Mover, from: Plot, to: Plot, dir: Direction, adder: Option<int>) {
    || IgnoresTerrainCost(rules, m, to, RiverCrossing(from, to, dir))
    || (rules.saneUnitMovementCost && ChangeValue(rules, m, to, adder) < 0)
  }

  /** The extra move owed in foreign, unfriendly land by a unit slowed there. */
  predicate SlowedInEnemyLand(m: Mover, to: Plot) {
    to.team != NO_TEAM && m.team.id != to.team && !to.friendlyTerritory && m.unit.slowInEnemyLand
  }

  /** Whole moves to move-denominator units, then the multiplier when
      MOD_SANE_UNIT_MOVEMENT_COST is off (a product divided back by the denominator,
      truncating as C++ does; the quotient is exact, the product being a multiple
      of the denominator). */
  function Scaled(rules: Rules, moves: int, multiplier: int): (r: int)
    ensures rules.saneUnitMovementCost ==> r == moves * rules.moveDenominator
    ensures !rules.saneUnitMovementCost ==> r == moves * multiplier
  {
    var cost := moves * rules.moveDenominator;
    if rules.saneUnitMovementCost then cost
    else
      assert cost * multiplier == (moves * multiplier) * rules.moveDenominator;
      TruncDivExact(moves * multiplier, rules.moveDenominator);
      TruncDiv(cost * multiplier, rules.moveDenominator)
  }

  /** The terrain path's cost before it is compared with the route cost. */
  function TerrainPathCost(rules: Rules, m: Mover, from: Plot, to: Plot, dir: Direction,
                           multiplier: Option<int>, adder: Option<int>): (r: int)
    ensures rules.saneUnitMovementCost ==>
      r == Discounted(RawTerrainCost(rules, m, to, RiverCrossing(from, to, dir), TerrainIgnored(rules, m, from, to, dir, adder)),
                      m.unit.extraMoveDiscount) * rules.moveDenominator
           + AdderValue(rules, m, to, adder)
           + (if SlowedInEnemyLand(m, to) then rules.moveDenominator else 0)
    ensures !rules.saneUnitMovementCost ==>
      r == Discounted(RawTerrainCost(rules, m, to, RiverCrossing(from, to, dir), TerrainIgnored(rules, m, from, to, dir, adder)),
                      m.unit.extraMoveDiscount) * MultiplierValue(rules, m, to, multiplier)
           + AdderValue(rules, m, to, adder)
           + (if SlowedInEnemyLand(m, to) then rules.moveDenominator else 0)
  {
    var moves := Discounted(RawTerrainCost(rules, m, to, RiverCrossing(from, to, dir), TerrainIgnored(rules, m, from, to, dir, adder)),
                            m.unit.extraMoveDiscount);
    var cost := Scaled(rules, moves, MultiplierValue(rules, m, to, multiplier)) + AdderValue(rules, m, to, adder);
    if SlowedInEnemyLand(m, to) then cost + rules.moveDenominator else cost
  }

  // ----- The whole chain -----

  /** The step is not decided by the unrevealed, air or route-into-city cases. */
  predicate PastRouteStage(rules: Rules, m: Mover, from: Plot, to: Plot, dir: Direction) {
    !HiddenFromHuman(m, to) && m.unit.domain != Air && !(RouteApplies(rules, m, from, to, dir) && to.isCity)
  }

  /** The step reaches the border, rough-terrain and later cases. */
  predicate ReachesObstacleStage(rules: Rules, m: Mover, from: Plot, to: Plot, dir: Direction) {
    PastRouteStage(rules, m, from, to, dir) && EmbarkCost(rules, m, Embarkation(rules, m, from, to)).None? &&
    !m.unit.flatMovementCost
  }

  /** The step reaches the final comparison of the terrain path with the route. */
  predicate ReachesDefault(rules: Rules, m: Mover, from: Plot, to: Plot, dir: Direction) {
    ReachesObstacleStage(rules, m, from, to, dir) && !BorderBlocked(m, from, to) &&
    !RoughEndsTurn(m, from, to) && !ShoreConversion(m, from, to) && !CityAsFlat(m, from, to, dir)
  }

  function GetCostsForMove(rules: Rules, m: Mover, from: Plot, to: Plot, dir: Direction,
                           multiplier: Option<int>, adder: Option<int>): (r: int)
    // unrevealed, then air
    ensures HiddenFromHuman(m, to) ==> r == INT_MAX
    ensures !HiddenFromHuman(m, to) && m.unit.domain == Air ==> r == rules.moveDenominator
    // a route into a city is final
    ensures (!HiddenFromHuman(m, to) && m.unit.domain != Air && RouteApplies(rules, m, from, to, dir) && to.isCity) ==>
      r == RouteCost(rules, m, from, to, dir).value
    // embark-state changes
    ensures PastRouteStage(rules, m, from, to, dir) ==>
      match Embarkation(rules, m, from, to)
      case NoStateChange => true
      case StateChange(free, cheap) =>
        && (!free && !cheap ==> r == INT_MAX)
        && (free && !m.unit.isCargo ==> r == rules.moveDenominator / 10)
        && (!free && cheap && !m.unit.isCargo ==> r == rules.moveDenominator)
    // flat movement after embarkation
    ensures (PastRouteStage(rules, m, from, to, dir) && m.unit.flatMovementCost &&
             EmbarkCost(rules, m, Embarkation(rules, m, from, to)).None?) ==>
      r == rules.moveDenominator
    // obstacles that end the turn, in order
    ensures (ReachesObstacleStage(rules, m, from, to, dir) &&
             (BorderBlocked(m, from, to) || RoughEndsTurn(m, from, to) || ShoreConversion(m, from, to))) ==>
      r == INT_MAX
    ensures (ReachesObstacleStage(rules, m, from, to, dir) && !BorderBlocked(m, from, to) &&
             !RoughEndsTurn(m, from, to) && !ShoreConversion(m, from, to) && CityAsFlat(m, from, to, dir)) ==>
      r == rules.moveDenominator
    // the default path: the cheaper of the terrain path and the route, never more than the route
    ensures (ReachesDefault(rules, m, from, to, dir) && RouteApplies(rules, m, from, to, dir)) ==>
      r <= RouteCost(rules, m, from, to, dir).value
    ensures ReachesDefault(rules, m, from, to, dir) ==>
      r == Min(if CargoLanding(rules, m, from, to) then 0
               else TerrainPathCost(rules, m, from, to, dir, multiplier, adder),
               RouteCost(rules, m, from, to, dir).GetOr(INT_MAX))
  {
    var d := rules.moveDenominator;
    if HiddenFromHuman(m, to) then INT_MAX
    else if m.unit.domain == Air then d
    else
      var route := RouteCost(rules, m, from, to, dir);
      if route.Some? && to.isCity then route.value
      else
        var embark := EmbarkCost(rules, m, Embarkation(rules, m, from, to));
        if embark.Some? then embark.value
        else if m.unit.flatMovementCost then d
        else if BorderBlocked(m, from, to) then INT_MAX
        else if RoughEndsTurn(m, from, to) then INT_MAX
        else if ShoreConversion(m, from, to) then INT_MAX
        else if CityAsFlat(m, from, to, dir) then d
        else
          var regular := if CargoLanding(rules, m, from, to) then 0
                         else TerrainPathCost(rules, m, from, to, dir, multiplier, adder);
          Min(regular, route.GetOr(INT_MAX))
  }
}

/** Properties of the step cost that relate several queries. */
module StepCostProperties {
  import opened MovementTypes
  import opened Promotions
  import opened StepCost

  /** Embarking without any discount ends the turn; the unit's flat-embark promotion
      brings the same step down to exactly one move. */
  lemma EmbarkPromotionMakesEmbarkingOneMove(rules: Rules, m: Mover, from: Plot, to: Plot, dir: Direction,
                                            multiplier: Option<int>, adder: Option<int>)
    requires PastRouteStage(rules, m, from, to, dir)
    requires m.unit.canEverEmbark && !m.unit.isCargo && !from.needsEmbarkation && to.needsEmbarkation
    requires !m.traits.embarkedToLandFlatCost && !m.unit.embarkFlatCost && !rules.embarkCityNoCost
    ensures GetCostsForMove(rules, m, from, to, dir, multiplier, adder) == INT_MAX
    ensures GetCostsForMove(rules, m.(unit := m.unit.(embarkFlatCost := true)), from, to, dir, multiplier, adder)
            == rules.moveDenominator
  {
    var m' := m.(unit := m.unit.(embarkFlatCost := true));
    assert RouteApplies(rules, m', from, to, dir) == RouteApplies(rules, m, from, to, dir);
    assert Embarkation(rules, m', from, to) == StateChange(false, true);
  }

  lemma ProductMonotone(d: int, x: int, y: int)
    requires d > 0 && x <= y
    ensures d * x <= d * y
  {
    assert d * y - d * x == d * (y - x);
  }

  /** The unit's own multiplier, or a precomputed one, is not negative. */
  predicate MultiplierNonNegative(rules: Rules, m: Mover, to: Plot, multiplier: Option<int>) {
    rules.saneUnitMovementCost || MultiplierValue(rules, m, to, multiplier) >= 0
  }

  /** Scaling preserves order when the multiplier is not negative. */
  lemma ScaledMonotone(rules: Rules, lo: int, hi: int, k: int)
    requires lo <= hi && (rules.saneUnitMovementCost || k >= 0)
    ensures Scaled(rules, lo, k) <= Scaled(rules, hi, k)
  {
    if rules.saneUnitMovementCost {
      ProductMonotone(rules.moveDenominator, lo, hi);
      assert lo * rules.moveDenominator <= hi * rules.moveDenominator;
    } else if k > 0 {
      ProductMonotone(k, lo, hi);
      assert lo * k <= hi * k;
    }
  }

  /** Every part of the terrain path except the discount depends only on the unit's
      promotions and flags, not on its discount. */
  lemma TerrainPathCostParts(rules: Rules, m: Mover, from: Plot, to: Plot, dir: Direction,
                             multiplier: Option<int>, adder: Option<int>, discount: int)
    ensures
      var m' := m.(unit := m.unit.(extraMoveDiscount := discount));
      TerrainPathCost(rules, m', from, to, dir, multiplier, adder) ==
        Scaled(rules, Discounted(RawTerrainCost(rules, m, to, RiverCrossing(from, to, dir),
                                                TerrainIgnored(rules, m, from, to, dir, adder)), discount),
               MultiplierValue(rules, m, to, multiplier))
        + AdderValue(rules, m, to, adder)
        + (if SlowedInEnemyLand(m, to) then rules.moveDenominator else 0)
  {
    var m' := m.(unit := m.unit.(extraMoveDiscount := discount));
    assert m'.unit.promotions == m.unit.promotions;
    assert TerrainIgnored(rules, m', from, to, dir, adder) == TerrainIgnored(rules, m, from, to, dir, adder);
    assert MultiplierValue(rules, m', to, multiplier) == MultiplierValue(rules, m, to, multiplier);
    assert AdderValue(rules, m', to, adder) == AdderValue(rules, m, to, adder);
  }

  /** A larger move discount never makes the terrain path dearer. */
  lemma DiscountNeverRaisesTerrainCost(rules: Rules, m: Mover, from: Plot, to: Plot, dir: Direction,
                                       multiplier: Option<int>, adder: Option<int>, discount: int)
    requires discount >= m.unit.extraMoveDiscount
    requires MultiplierNonNegative(rules, m, to, multiplier)
    ensures TerrainPathCost(rules, m.(unit := m.unit.(extraMoveDiscount := discount)), from, to, dir, multiplier, adder)
            <= TerrainPathCost(rules, m, from, to, dir, multiplier, adder)
  {
    var raw := RawTerrainCost(rules, m, to, RiverCrossing(from, to, dir), TerrainIgnored(rules, m, from, to, dir, adder));
    var k := MultiplierValue(rules, m, to, multiplier);
    TerrainPathCostParts(rules, m, from, to, dir, multiplier, adder, discount);
    ScaledMonotone(rules, Discounted(raw, discount), Discounted(raw, m.unit.extraMoveDiscount), k);
  }
}
