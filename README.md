# Unit movement cost engine (CvUnitMovement) in Dafny

This project models the movement-cost engine of the Community Patch game core
(`CvUnitMovement`). The engine computes what one step of a unit costs, from a plot to
an adjacent plot. Costs are in move-denominator units: one whole move is
`MOVE_DENOMINATOR`. `INT_MAX` means "this step ends the turn or is not possible".
The engine also decides whether the step is slowed by an enemy zone of control (ZOC).
A slowed step uses up all the unit's remaining moves. The engine only reads its
inputs and changes nothing.

The model follows the source file's own structure:

- `MovementTypes` (`types.dfy`) holds the inputs as immutable records:
  - `Rules`: the numeric defines, the `MOD_*` switches (including the two `#if`
    switches, `MOD_BALANCE_CORE_EMBARK_CITY_NO_COST` and `MOD_CARGO_SHIPS`), the
    enumeration values the file names, and the route, terrain and feature cost
    tables.
  - `Unit`, `Traits` and `TeamView`: the moving unit, its owner's traits and its
    team's relations.
  - `Plot`: a plot, with the queries it answers for the moving unit (revealed, needs
    embarkation, valid route, ...) and its list of `UnitNode`s.
- `Promotions` (`promotions.dfy`) holds the three promotion resolvers. Each takes the
  first condition that matches. The shared five-step speed chain is defined once
  (`MatchSpeedRule`), and so is the three-step extra-move chain (`ExtraMoveCount`).
- `StepCost` (`step_cost.dfy`) holds `GetCostsForMove`: a chain of named stages in
  the source's order. These are the route, embarkation, border obstacle, rough
  terrain, shore conversion, city-as-flat-ground, cargo landing and terrain path
  stages. `StepCostProperties` holds lemmas that compare one query with another.
- `ZoneOfControl` (`zone_of_control.dfy`) holds `IsSlowedByZOC` as a method. It has
  the source's loops: the `for` over the two flank plots, written as a `while`, and
  a `while` over each plot's unit list, with `continue` and early `return`. It is proved equal to the
  declarative predicate `Slowed`. `ZocVariant` selects between the two overloads:
  - `Plain` is the overload without an ignore list.
  - `Selective(list)` is the overload with one.
- `UnitMovement` (`movement.dfy`) holds the entry points `MovementCostNoZOC`,
  `MovementCost` and `MovementCostSelectiveZOC`.

Representation choices:

- The result sentinel is the integer constant `INT_MAX` (0x7fffffff). This keeps the
  clamp arithmetic of `MovementCostNoZOC` exact.
- The precomputed-promotion-value sentinel (`INT_MAX` passed in for "compute it
  now") is an `Option<int>`, with `None` meaning "compute it now".
- A missing cost-table entry costs 0.
- C++ division, which truncates toward zero, is written out as `TruncDiv`.

The code does the following, which is easy to miss, and the model does the same:

- A free embark transition costs `MOVE_DENOMINATOR / 10`, not zero.
- The cargo-landing case returns `min(0, route cost)` directly. No promotion adder
  is applied to it.
- The two ZOC overloads share one method here, but they keep their two differences:
  - Only the ignore-list overload counts barbarian-team units as hostile.
  - Only the plain overload skips units awaiting delayed death.

  The lemmas `BarbarianCountsOnlyWithIgnoreList` and
  `DelayedDeathSkippedOnlyWithoutIgnoreList` show both differences.
- The combined change form treats "half move on hills" as a *faster* condition and
  returns -1, which means "ignore terrain cost". The multiplier form doubles the cost
  for the same promotion. The model keeps this as written, and
  `HillsHalfMoveFormsDisagree` states the disagreement.

## Model

| member | source | states |
|---|---|---|
| `Promotions.MultiplierFromPromotions` | CvGameCoreDLL_Expansion2/CvUnitMovement.cpp:549-577 | The result is one of D/2, D or 2D. It is D/2 exactly when hills-double applies on a hill, or when a mountain-double or generic double-move applies and hill-half does not. It is 2D exactly when hills-double does not apply and either hill-half applies, or a generic half-move applies with no double condition. It is D exactly when no condition matches. |
| `Promotions.AdderFromPromotions` | CvGameCoreDLL_Expansion2/CvUnitMovement.cpp:581-601 | The result is a whole number of moves. It is D times the count of the first matching extra-move condition (hill, then terrain, then feature), or 0 when none matches. It is non-negative when no count is negative. |
| `Promotions.ChangeFromPromotions` | CvGameCoreDLL_Expansion2/CvUnitMovement.cpp:606-654 | The result is -1 when a faster condition matches. Otherwise it is D for a half move (else 0) plus the adder form. With non-negative counts it is -1 exactly when a faster condition matches. |
| `Promotions.HillsDoubleMoveTakesPriority` | CvGameCoreDLL_Expansion2/CvUnitMovement.cpp:555-558 | Two units that both have hills-double on a hill get the same multiplier (D/2) and the same change (-1), whatever other traits they have. |
| `Promotions.HalvingMeansIgnoreTerrain` | CvGameCoreDLL_Expansion2/CvUnitMovement.cpp:555-636 | Whenever the multiplier form halves the cost, the change form returns -1. |
| `Promotions.NeutralMultiplierMeansAdder` | CvGameCoreDLL_Expansion2/CvUnitMovement.cpp:576-653 | When the multiplier is D, the change form equals the adder form. |
| `Promotions.HalfMoveMeansOneExtraMove` | CvGameCoreDLL_Expansion2/CvUnitMovement.cpp:571-653 | A generic half move (multiplier 2D, not hill-half) makes the change form one move (D) plus the adder. |
| `Promotions.HillsHalfMoveFormsDisagree` | CvGameCoreDLL_Expansion2/CvUnitMovement.cpp:559-620 | Hill-half on a hill, without hills-double, gives multiplier 2D but change -1. |
| `StepCost.RouteStepCost` | CvGameCoreDLL_Expansion2/CvUnitMovement.cpp:76-81 | The route cost is at most the variable cost at one end (with the team's route change). It is also at most the flat cost times base moves at one end. It equals either the dearer end's variable cost or the dearer end's flat cost, so it is the smaller of the two. |
| `StepCost.RouteStepCostSymmetric` | CvGameCoreDLL_Expansion2/CvUnitMovement.cpp:78-81 | The route cost between two route kinds is the same in both directions. |
| `StepCost.RouteCost` | CvGameCoreDLL_Expansion2/CvUnitMovement.cpp:43-85 | The route branch fires exactly when the unit does not hover, has a real or fake route at both ends, and any river crossed is bridged or the unit is amphibious. When it fires, its value is the route-step cost of the two route kinds, with a road wherever a fake route applies. |
| `StepCost.Embarkation` | CvGameCoreDLL_Expansion2/CvUnitMovement.cpp:88-136 | An embark-state change is seen exactly when the unit can embark and exactly one end needs embarkation (either direction). The flat-cost trait always makes it cheap. Only the city policy under the city switch makes it free. Without that switch, it is cheap exactly when the trait or the direction's own promotion (disembark or embark) is present. With the switch, the land end (the destination when disembarking, the origin when embarking) decides: the change is free exactly when that end is a coastal city or passable improvement and the team has the no-cost policy. It is cheap exactly when the trait or the promotion is present, or that end qualifies and the team has only the reduced-cost policy. |
| `StepCost.RawTerrainCost` | CvGameCoreDLL_Expansion2/CvUnitMovement.cpp:244-260 | Ignored terrain costs one move without a river crossing; across a river it costs one move only for a hovering or amphibious unit or when IGNORE_TERRAIN_COST_INCLUDES_RIVERS > 0, and otherwise the full cost below. Terrain that is not ignored costs the feature cost (or the terrain cost when there is no feature), plus the hills/mountain surcharge, plus the river surcharge for a land unit that is not amphibious. |
| `StepCost.Discounted` | CvGameCoreDLL_Expansion2/CvUnitMovement.cpp:262-265 | A positive cost less the discount is floored at 1: the result is 1 or cost minus discount, and never below either. With a non-negative discount it never rises. A non-positive cost is left unchanged. |
| `StepCost.Scaled` | CvGameCoreDLL_Expansion2/CvUnitMovement.cpp:267-280 | Moves are converted to denominator units. Under the change-form rules no multiplier is applied. Otherwise the result is exactly moves times the multiplier: the truncating division by D loses nothing, because the product is a multiple of D. |
| `StepCost.TerrainPathCost` | CvGameCoreDLL_Expansion2/CvUnitMovement.cpp:215-304 | Under MOD_SANE_UNIT_MOVEMENT_COST, the terrain path is the discounted raw cost times D, plus the change-form value (0 when it is negative), plus one move for a slow-in-enemy-land unit in foreign, unfriendly territory. Without that switch, it is the discounted raw cost times the multiplier, plus the adder, plus the same extra move. |
| `StepCost.GetCostsForMove` | CvGameCoreDLL_Expansion2/CvUnitMovement.cpp:10-308 | The cases decide in this order: (1) an unrevealed plot for a human gives INT_MAX; (2) an air unit gives exactly D; (3) a route into a city gives the route cost; (4) an embark change with no grant gives INT_MAX, a free grant for a non-cargo unit gives D/10, a cheap-only grant for a non-cargo unit gives D; a granted change of a cargo unit goes on to the later cases; (5) a flat-movement unit gives D; (6) a border obstacle, rough terrain that ends the turn, or a shore conversion gives INT_MAX; (7) a city as flat ground gives D. Otherwise the result is the smaller of the terrain path (0 for a cargo landing) and the route cost (INT_MAX when no route applies), so a terrain path cheaper than the route wins, and the result never exceeds the route cost. |
| `MovementTypes.Lookup` | CvGameCoreDLL_Expansion2/CvUnitMovement.cpp:66-73 | A route, terrain or feature kind with no table entry costs 0. This is the source's `pInfo ? … : 0` default, also used at line 248. |
| `MovementTypes.TruncDiv` | CvGameCoreDLL_Expansion2/CvUnitMovement.cpp:279 | C++ integer division, which truncates toward zero. For a non-negative dividend the quotient q satisfies 0 <= q and q·b <= a < q·b + b. For a negative dividend, q <= 0 and q·b - b < a <= q·b. |
| `Promotions.HillsDoubleOn` | CvGameCoreDLL_Expansion2/CvUnitMovement.cpp:555 | Hills double move applies on a hill. The change form tests the same at line 614. |
| `Promotions.HillsHalfOn` | CvGameCoreDLL_Expansion2/CvUnitMovement.cpp:559 | A half move on hills (`TERRAIN_HILL` among the half-move terrains) applies on a hill. The change form tests the same at line 618. |
| `Promotions.MountainsDoubleOn` | CvGameCoreDLL_Expansion2/CvUnitMovement.cpp:563 | Mountains double move applies on a mountain. The change form tests the same at line 622. |
| `Promotions.DoubleMoveOn` | CvGameCoreDLL_Expansion2/CvUnitMovement.cpp:567 | The plot's terrain or feature is among the unit's double-move kinds. The change form tests the same at line 626. |
| `Promotions.HalfMoveOn` | CvGameCoreDLL_Expansion2/CvUnitMovement.cpp:571 | The plot's terrain or feature is among the unit's half-move kinds. The change form tests the same at line 630. |
| `Promotions.HillsExtraOn` | CvGameCoreDLL_Expansion2/CvUnitMovement.cpp:587 | An extra-move count for `TERRAIN_HILL` applies on a hill. The change form tests the same at line 640. |
| `Promotions.FasterOn` | CvGameCoreDLL_Expansion2/CvUnitMovement.cpp:614-629 | The change form's "faster" conditions are the first four speed conditions: hills double, hills half, mountains double, and terrain or feature double. |
| `Promotions.MatchSpeedRule` | CvGameCoreDLL_Expansion2/CvUnitMovement.cpp:555-633 | The first of the five speed conditions that holds, in the source's order, or none. The multiplier form (lines 555-574) and the change form (lines 614-633) share this chain. |
| `Promotions.ExtraMoveCount` | CvGameCoreDLL_Expansion2/CvUnitMovement.cpp:587-651 | The count of the first extra-move condition that holds (hill, then the plot's terrain, then its feature), or 0 when none does. The adder form (lines 587-598) and the change form (lines 640-651) share this chain. |
| `StepCost.MovingAlongRiver` | CvGameCoreDLL_Expansion2/CvUnitMovement.cpp:48 | Both plots touch a river and the step does not cross it. |
| `StepCost.IsWoodland` | CvGameCoreDLL_Expansion2/CvUnitMovement.cpp:55-56 | A feature is forest or jungle. |
| `StepCost.WoodlandOwnershipHolds` | CvGameCoreDLL_Expansion2/CvUnitMovement.cpp:55-56 | The woodland bonus needs the destination to be the unit's team's, unless MOD_BALANCE_VP is on. Both ends test the destination's team. |
| `StepCost.HiddenFromHuman` | CvGameCoreDLL_Expansion2/CvUnitMovement.cpp:17-21 | A human player's unit stepping into a plot its team has not revealed; this case comes first and ends the turn. |
| `StepCost.RiverCrossing` | CvGameCoreDLL_Expansion2/CvUnitMovement.cpp:37 | The step crosses a river when both plots have a river crossing and the origin has a river edge in the step's direction. |
| `StepCost.RouteApplies` | CvGameCoreDLL_Expansion2/CvUnitMovement.cpp:60-63 | The route branch needs a unit that does not hover, a real or fake route at both ends, and, across a river, bridge building or an amphibious unit. |
| `StepCost.RouteKindFrom` | CvGameCoreDLL_Expansion2/CvUnitMovement.cpp:65 | The origin's route kind is a road when a fake route applies there, and the plot's own route otherwise. |
| `StepCost.RouteKindTo` | CvGameCoreDLL_Expansion2/CvUnitMovement.cpp:70 | The same for the destination. |
| `StepCost.PlotBaseCost` | CvGameCoreDLL_Expansion2/CvUnitMovement.cpp:38-41 | The destination's feature cost, or its terrain cost when it has no feature (line 248). A "none" terrain or feature, or a kind missing from the table, costs 0. |
| `StepCost.TerrainIgnored` | CvGameCoreDLL_Expansion2/CvUnitMovement.cpp:219-241 | The terrain path ignores terrain cost when `IgnoresTerrainCost` holds. Under MOD_SANE_UNIT_MOVEMENT_COST it is also ignored when the change value is negative. |
| `StepCost.ChangeValue` | CvGameCoreDLL_Expansion2/CvUnitMovement.cpp:231-233 | The change-form value is the precomputed one when given. When the caller passes "compute it now" (INT_MAX in the source, None here), it is computed by the change resolver. |
| `StepCost.MultiplierValue` | CvGameCoreDLL_Expansion2/CvUnitMovement.cpp:273-275 | The multiplier is the precomputed one when given, and otherwise the multiplier resolver's. |
| `StepCost.AdderValue` | CvGameCoreDLL_Expansion2/CvUnitMovement.cpp:231-284 | Under MOD_SANE_UNIT_MOVEMENT_COST, the added cost is the change value, and 0 when that value is negative (lines 236-240). Without that switch, it is the precomputed adder, or the adder resolver's when none is given (lines 282-284). |
| `ZoneOfControl.Ignored` | CvGameCoreDLL_Expansion2/CvUnitMovement.cpp:369-371 | A flank plot is skipped only in the ignore-list overload, when its index is in the list. |
| `ZoneOfControl.FlankTriggers` | CvGameCoreDLL_Expansion2/CvUnitMovement.cpp:369-441 | A flank plot that is not skipped slows the step when it holds an enemy city or a unit that exerts ZOC. |
| `ZoneOfControl.FlankAt` | CvGameCoreDLL_Expansion2/CvUnitMovement.cpp:365-367 | A flank off the map (no plot) never slows the step. |
| `ZoneOfControl.Slowed` | CvGameCoreDLL_Expansion2/CvUnitMovement.cpp:343-546 | The reference definition that `IsSlowedByZOC` is proved equal to. ZOC is not ignored by the unit, ZONE_OF_CONTROL_ENABLED > 0, and one of the two flank plots, at directions (dir+1)%6 and (dir+5)%6, triggers. |
| `StepCost.FakeRouteFrom` | CvGameCoreDLL_Expansion2/CvUnitMovement.cpp:48-56 | The origin counts as a road when a river-movement unit moves along a river. Without MOD_SANE_UNIT_MOVEMENT_COST, it also counts as a road when a woodland-movement unit leaves forest or jungle and the destination is its team's (or MOD_BALANCE_VP is on). |
| `StepCost.FakeRouteTo` | CvGameCoreDLL_Expansion2/CvUnitMovement.cpp:48-55 | The same for the destination, with its own feature. |
| `StepCost.EmbarkCost` | CvGameCoreDLL_Expansion2/CvUnitMovement.cpp:138-150 | A full-cost change ends the turn (INT_MAX). A free change for a unit not carried as cargo costs D/10, and a cheap one costs D. Otherwise the chain goes on. |
| `StepCost.BorderBlocked` | CvGameCoreDLL_Expansion2/CvUnitMovement.cpp:153-189 | A third team's plot without open borders blocks a land unit by the owner's border obstacle on land. It also blocks by the owning city's land obstacle on land, or its water obstacle on water for a sea unit or an embarked step. |
| `StepCost.RoughEndsTurn` | CvGameCoreDLL_Expansion2/CvUnitMovement.cpp:191-195 | Rough ground ends the turn for such a unit unless real routes join both plots. |
| `StepCost.ShoreConversion` | CvGameCoreDLL_Expansion2/CvUnitMovement.cpp:197-201 | A converting sea unit going ashore, or a converting land unit going to sea, ends the turn. |
| `StepCost.CityAsFlat` | CvGameCoreDLL_Expansion2/CvUnitMovement.cpp:203-206 | A city of a team not at war counts as flat ground, unless an unbridged river is crossed. |
| `StepCost.CargoLanding` | CvGameCoreDLL_Expansion2/CvUnitMovement.cpp:207-213 | Under MOD_CARGO_SHIPS, a land cargo unit with the flat-cost trait landing from water on coastal land has a terrain cost of 0. |
| `StepCost.IgnoresTerrainCost` | CvGameCoreDLL_Expansion2/CvUnitMovement.cpp:219-227 | Terrain cost is ignored by the unit's own ability, by an amphibious river crossing under MOD_BALANCE_CORE, or by the faster-in-hills and mountain-pass traits on their plots. |
| `StepCost.SlowedInEnemyLand` | CvGameCoreDLL_Expansion2/CvUnitMovement.cpp:290-298 | A unit slowed in enemy land pays one more move in another team's territory that is not friendly to it. |
| `ZoneOfControl.Hostile` | CvGameCoreDLL_Expansion2/CvUnitMovement.cpp:406-407 | A unit is hostile when its team is at war with the mover's team or it is always hostile. In the ignore-list overload (line 407, compared with line 508), a barbarian-team unit is also hostile. |
| `ZoneOfControl.DomainControls` | CvGameCoreDLL_Expansion2/CvUnitMovement.cpp:410-436 | A unit of another domain controls only when it hovers, or when it is a sea unit and an end of the step needs embarkation. A land unit of the same domain does not control a step where both ends need embarkation. |
| `StepCostProperties.EmbarkPromotionMakesEmbarkingOneMove` | CvGameCoreDLL_Expansion2/CvUnitMovement.cpp:117-149 | With the city switch (MOD_BALANCE_CORE_EMBARK_CITY_NO_COST) off, embarking with no discount costs INT_MAX. The same step for the same unit with the flat-embark promotion costs exactly D. |
| `StepCostProperties.DiscountNeverRaisesTerrainCost` | CvGameCoreDLL_Expansion2/CvUnitMovement.cpp:262-280 | Raising the unit's move discount never raises the terrain-path cost, when the multiplier is not negative. |
| `ZoneOfControl.FlankDirections` | CvGameCoreDLL_Expansion2/CvUnitMovement.cpp:357-359 | The two flank directions are the neighbours of the step direction on the six-direction ring: distinct from each other and from the step direction. |
| `ZoneOfControl.ExertsZoc` | CvGameCoreDLL_Expansion2/CvUnitMovement.cpp:378-440 | A unit that exerts ZOC has these properties: its owner is not the mover's owner, it was found, it is visible to the mover's team, it is a combat unit, it is not embarked, and it is hostile. In the plain overload it is also not awaiting delayed death. A same-domain land unit never controls a step whose both ends need embarkation. A non-hovering sea unit controls a land unit only when an end needs embarkation. |
| `ZoneOfControl.IsSlowedByZOC` | CvGameCoreDLL_Expansion2/CvUnitMovement.cpp:343-546 | The loops return exactly `Slowed`: ZOC is not ignored and is enabled, and one of the two flank plots exists, is not in the ignore list, and holds an enemy city or a unit that exerts ZOC. The result is false when the unit ignores ZOC or ZONE_OF_CONTROL_ENABLED <= 0. |
| `ZoneOfControl.OnlyFlanksMatter` | CvGameCoreDLL_Expansion2/CvUnitMovement.cpp:356-367 | Two neighbour tables that agree on the two flank plots give the same answer. |
| `ZoneOfControl.IgnoreListMonotone` | CvGameCoreDLL_Expansion2/CvUnitMovement.cpp:369-371 | Enlarging the ignore list can turn "slowed" into "not slowed", never the reverse. |
| `ZoneOfControl.BarbarianCountsOnlyWithIgnoreList` | CvGameCoreDLL_Expansion2/CvUnitMovement.cpp:406-508 | Take a barbarian-team unit the mover's team is not at war with that is otherwise eligible. It exerts ZOC in the ignore-list overload and not in the plain one. |
| `ZoneOfControl.DelayedDeathSkippedOnlyWithoutIgnoreList` | CvGameCoreDLL_Expansion2/CvUnitMovement.cpp:391-493 | An eligible enemy unit awaiting delayed death exerts ZOC in the ignore-list overload and not in the plain one. |
| `ZoneOfControl.OverloadsAgreeWithoutBarbariansOrDoomed` | CvGameCoreDLL_Expansion2/CvUnitMovement.cpp:343-546 | Suppose no barbarian-team or delayed-death unit stands on the flanks. Then the ignore-list overload with an empty list and the plain overload give the same answer. |
| `UnitMovement.MovementCostNoZOC` | CvGameCoreDLL_Expansion2/CvUnitMovement.cpp:329-340 | The result is min(max(cost, remaining - maxMoves), remaining). It never exceeds the remaining moves. With maxMoves >= 0 it never leaves more than maxMoves. It is at least the step cost when that cost is affordable. An INT_MAX cost uses all remaining moves. |
| `UnitMovement.MovementCost` | CvGameCoreDLL_Expansion2/CvUnitMovement.cpp:311-317 | A step slowed by ZOC (plain overload) costs exactly the remaining moves. Otherwise it costs MovementCostNoZOC. It never costs more than the remaining moves. |
| `UnitMovement.MovementCostSelectiveZOC` | CvGameCoreDLL_Expansion2/CvUnitMovement.cpp:320-326 | The same as MovementCost, with the ignore-list overload of the ZOC test. |
| `UnitMovement.DomainChangeClamp` | CvGameCoreDLL_Expansion2/CvUnitMovement.cpp:333-339 | When the cost would leave more than maxMoves (>= 0), the step costs exactly remaining - maxMoves. |

## Left out

- Global lookups (`GET_PLAYER`, `GET_TEAM`, `GC`, `GD_INT_GET`) and unit lookup by ID are inputs. The rule values are `Rules` fields. The owner's traits and the team's relations are `Traits` and `TeamView`. The unit a node refers to is `UnitNode.occupant`.
- The hex geometry of `directionXY` and `plotDirection` is not modelled. The step direction is a parameter. The origin's six neighbours (None off the map) are a `seq<Option<Plot>>`.
- The internals of the plot and unit predicates are opaque booleans on the records. These include `isInvisible`, `isEnemyCity`, `needsEmbarkation`, `IsFriendlyTerritory`, `isCoastalCityOrPassableImprovement`, `isValidRoute`, `isRevealed`, `isAlwaysHostile` and the border-obstacle queries.
- The unit list of a plot, a linked list walked with `headUnitNode`/`nextUnitNode`, is a `seq<UnitNode>`.
- The enumeration values `TERRAIN_HILL`, `FEATURE_FOREST`, `FEATURE_JUNGLE`, `ROUTE_ROAD` and `BARBARIAN_TEAM` are defined outside this file, so they are `Rules` fields. The "none" values are -1.
- 32-bit integers are unbounded here, so a C++ overflow is not modelled. For example, a terrain cost above `INT_MAX` is compared with `INT_MAX` exactly.
- A precomputed promotion value is `Option<int>`, so two `INT_MAX` edge cases are not modelled. A precomputed value equal to `INT_MAX` cannot be passed as a real value. Under MOD_SANE_UNIT_MOVEMENT_COST the source would compute the adder again at line 282 if the change form itself returned `INT_MAX`; the model does not.
- Null checks (`pUnit ? … : false`) are not modelled: the records are total.
- Callers, pathfinding and any caching of precomputed modifiers are outside this model.
