/** Snapshots of everything the movement-cost engine reads: the rule configuration,
    the moving unit with its owner's traits and its team's relations, and the two
    plots of a step (with the units standing on a plot, for zone of control).
    Every record is an immutable value: the engine reads them and changes nothing. */
module MovementTypes {

  /** The source's "ends turn / blocked" sentinel, and the largest 32-bit int. */
  const INT_MAX: int := 0x7fff_ffff

  /** Enumeration values meaning "none" (the game's NO_TEAM, NO_FEATURE, NO_TERRAIN). */
  const NO_TEAM: int := -1
  const NO_FEATURE: int := -1
  const NO_TERRAIN: int := -1

  /** One of the six hex directions. */
  type Direction = d: int | 0 <= d < 6

  type Positive = n: int | n > 0 witness 1

  datatype Option<T> = None | Some(value: T) {
    function GetOr(default: T): T {
      match this
      case Some(v) => v
      case None => default
    }
  }

  function Min(a: int, b: int): (r: int)
    ensures r <= a && r <= b && (r == a || r == b)
  {
    if a < b then a else b
  }

  function Max(a: int, b: int): (r: int)
    ensures r >= a && r >= b && (r == a || r == b)
  {
    if a < b then b else a
  }

  /** A cost-table lookup; a kind without an entry costs 0. */
  function Lookup(table: map<int, int>, kind: int): int {
    if kind in table then table[kind] else 0
  }

  /** Integer division truncating toward zero, as C++ does. */
  function TruncDiv(a: int, b: int): (q: int)
    requires b > 0
    ensures a >= 0 ==> 0 <= q && q * b <= a < q * b + b
    ensures a < 0 ==> q <= 0 && q * b - b < a <= q * b
  {
    if a >= 0 then
      DivBounds(a, b);
      a / b
    else
      DivBounds(-a, b);
      -((-a) / b)
  }

  /** Euclidean division of a non-negative number brackets it between two
      consecutive multiples of the divisor. */
  lemma DivBounds(a: nat, b: int)
    requires b > 0
    ensures 0 <= a / b && (a / b) * b <= a < (a / b) * b + b
  {
    var q := a / b;
    var m := a % b;
    assert a == b * q + m && 0 <= m < b;
    assert q * b == b * q;
  }

  /** Multiplying by the divisor and dividing by it again gives the number back. */
  lemma TruncDivExact(a: int, d: int)
    requires d > 0
    ensures TruncDiv(a * d, d) == a
  {
    if a >= 0 {
      ProductExactDiv(a, d);
    } else {
      ProductExactDiv(-a, d);
      assert -(a * d) == (-a) * d;
    }
  }

  lemma ProductExactDiv(a: nat, d: int)
    requires d > 0
    ensures (a * d) / d == a
  {
    var q := (a * d) / d;
    var m := (a * d) % d;
    assert a * d == d * q + m;
    assert d * (a - q) == m;
    if a - q > 0 {
      ProductAtLeast(d, a - q);
    }
  }

  /** A multiple of the move denominator is a whole number of moves. */
  lemma MultipleHasNoRemainder(d: int, c: int)
    requires d > 0
    ensures (d * c) % d == 0
  {
    var q := (d * c) / d;
    var m := (d * c) % d;
    assert d * c == d * q + m;
    var k := c - q;
    assert d * k == m by { assert d * k == d * c - d * q; }
    if k > 0 {
      ProductAtLeast(d, k);
    }
  }

  lemma ProductAtLeast(d: int, k: int)
    requires d > 0 && k > 0
    ensures d * k >= d
  {
  }

  datatype Domain = Land | Sea | Air | OtherDomain

  /** Global configuration: the game's numeric defines, the compile-time and
      run-time MOD switches, the enumeration values the file names, and the
      route/terrain/feature cost tables. */
  datatype Rules = Rules(
    moveDenominator: Positive,            // MOVE_DENOMINATOR
    hillsExtraMovement: int,              // HILLS_EXTRA_MOVEMENT
    riverExtraMovement: int,              // RIVER_EXTRA_MOVEMENT
    zoneOfControlEnabled: int,            // ZONE_OF_CONTROL_ENABLED
    ignoreTerrainCostIncludesRivers: int, // IGNORE_TERRAIN_COST_INCLUDES_RIVERS
    saneUnitMovementCost: bool,           // MOD_SANE_UNIT_MOVEMENT_COST
    balanceCore: bool,                    // MOD_BALANCE_CORE
    balanceVP: bool,                      // MOD_BALANCE_VP
    embarkCityNoCost: bool,               // #if MOD_BALANCE_CORE_EMBARK_CITY_NO_COST
    cargoShips: bool,                     // #if MOD_CARGO_SHIPS
    terrainHill: int,                     // TERRAIN_HILL
    featureForest: int,                   // FEATURE_FOREST
    featureJungle: int,                   // FEATURE_JUNGLE
    routeRoad: int,                       // ROUTE_ROAD
    barbarianTeam: int,                   // BARBARIAN_TEAM
    terrainCost: map<int, int>,           // terrain kind -> movement cost
    featureCost: map<int, int>,           // feature kind -> movement cost
    routeCost: map<int, int>,             // route kind -> movement cost
    routeFlatCost: map<int, int>)         // route kind -> flat movement cost

  /** The movement promotions of a unit. A terrain or feature kind is in a set when
      the unit has that ability there; the extra-move maps give the count for every
      kind on which the unit has an extra move cost. */
  datatype MovePromotions = MovePromotions(
    hillsDoubleMove: bool,
    mountainsDoubleMove: bool,
    terrainDoubleMove: set<int>,
    featureDoubleMove: set<int>,
    terrainHalfMove: set<int>,
    featureHalfMove: set<int>,
    terrainExtraMove: map<int, int>,
    featureExtraMove: map<int, int>)

  /** The moving unit. */
  datatype Unit = Unit(
    owner: int,
    isHuman: bool,
    domain: Domain,
    amphibious: bool,              // isRiverCrossingNoPenalty
    hovering: bool,                // IsHoveringUnit
    baseMoves: int,                // baseMoves(false), in whole moves
    canEverEmbark: bool,
    embarkFlatCost: bool,
    disembarkFlatCost: bool,
    isCargo: bool,
    flatMovementCost: bool,
    roughTerrainEndsTurn: bool,
    convertUnit: bool,
    ignoreTerrainCost: bool,
    extraMoveDiscount: int,
    slowInEnemyLand: bool,
    ignoreZOC: bool,
    promotions: MovePromotions)

  /** The traits of the unit's owner. */
  datatype Traits = Traits(
    riverMovementBonus: bool,
    woodlandMovementBonus: bool,
    embarkedToLandFlatCost: bool,
    fasterInHills: bool,
    mountainPass: bool)

  /** The unit's team and its relations to other teams. */
  datatype TeamView = TeamView(
    id: int,
    atWarWith: set<int>,
    openBordersFrom: set<int>,     // teams that allow this team open borders
    bridgeBuilding: bool,
    routeChange: map<int, int>,    // route kind -> movement cost change
    cityNoEmbarkCost: bool,
    cityLessEmbarkCost: bool)

  datatype Mover = Mover(unit: Unit, traits: Traits, team: TeamView)

  /** A unit standing on a plot, as the zone-of-control scan sees it. */
  datatype Occupant = Occupant(
    team: int,
    domain: Domain,
    invisibleTo: set<int>,         // teams the occupant is invisible to
    isCombat: bool,
    isEmbarked: bool,
    isDelayedDeath: bool,
    alwaysHostile: bool,           // isAlwaysHostile on the plot it stands on
    hovering: bool)

  /** An entry of a plot's unit list: the owner, and the unit the owner's lookup
      finds (None when the lookup finds nothing). */
  datatype UnitNode = UnitNode(owner: int, occupant: Option<Occupant>)

  /** The border defences of the city owning a plot. */
  datatype CityDefence = CityDefence(borderObstacleLand: int, borderObstacleWater: int)

  /** A plot. The fields after `coastalLand` are queries the plot answers for the
      one unit whose move is being costed (revealed to its team, needs embarkation
      for it, ...). */
  datatype Plot = Plot(
    index: int,
    team: int,                     // owning team, NO_TEAM if unowned
    terrain: int,
    feature: int,                  // NO_FEATURE if none
    route: int,
    isCity: bool,
    isWater: bool,
    isHills: bool,
    isMountain: bool,
    isRoughGround: bool,
    isRiver: bool,
    riverCrossingCount: int,
    riverCrossings: set<Direction>, // directions in which a river is crossed
    coastalLand: bool,             // isCoastalLand(1)
    revealed: bool,
    needsEmbarkation: bool,
    validRoute: bool,
    coastalCityOrPassable: bool,   // isCoastalCityOrPassableImprovement(owner, true, true)
    friendlyTerritory: bool,
    enemyCity: bool,
    ownerBorderObstacle: bool,     // the owning team or player has a border obstacle
    owningCity: Option<CityDefence>,
    units: seq<UnitNode>)
}
