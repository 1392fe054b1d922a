/** The entry points: zone of control first, then the step cost, clamped so that
    after a domain change the unit never keeps more moves than the new domain
    allows, and never charged more than the moves it has left. */
module UnitMovement {
  import opened MovementTypes
  import opened StepCost
  import opened ZoneOfControl

  /** MovementCostNoZOC: the step cost raised to leave at most `maxMoves`, then
      capped at `movesRemaining`. */
  function MovementCostNoZOC(rules: Rules, m: Mover, from: Plot, to: Plot, dir: Direction,
                             movesRemaining: int, maxMoves: int,
                             multiplier: Option<int>, adder: Option<int>): (r: int)
    ensures r <= movesRemaining
    ensures maxMoves >= 0 ==> movesRemaining - r <= maxMoves
    ensures GetCostsForMove(rules, m, from, to, dir, multiplier, adder) <= movesRemaining ==>
      r >= GetCostsForMove(rules, m, from, to, dir, multiplier, adder)
    ensures r == Min(Max(GetCostsForMove(rules, m, from, to, dir, multiplier, adder), movesRemaining - maxMoves),
                     movesRemaining)
    ensures (GetCostsForMove(rules, m, from, to, dir, multiplier, adder) == INT_MAX &&
             0 <= maxMoves && movesRemaining <= INT_MAX) ==> r == movesRemaining
  {
    var cost := GetCostsForMove(rules, m, from, to, dir, multiplier, adder);
    var leftOverMoves := movesRemaining - cost;
    var clamped := if leftOverMoves > maxMoves then cost + (leftOverMoves - maxMoves) else cost;
    Min(clamped, movesRemaining)
  }

  /** MovementCost: all remaining moves when the step is slowed by zone of control
      (the overload without an ignore list), otherwise MovementCostNoZOC. */
  method MovementCost(rules: Rules, m: Mover, from: Plot, to: Plot, dir: Direction,
                      neighbours: seq<Option<Plot>>, movesRemaining: int, maxMoves: int,
                      multiplier: Option<int>, adder: Option<int>) returns (cost: int)
    requires |neighbours| == 6
    ensures Slowed(rules, Plain, m, from, to, dir, neighbours) ==> cost == movesRemaining
    ensures !Slowed(rules, Plain, m, from, to, dir, neighbours) ==>
      cost == MovementCostNoZOC(rules, m, from, to, dir, movesRemaining, maxMoves, multiplier, adder)
    ensures cost <= movesRemaining
  {
    var slowed := IsSlowedByZOC(rules, Plain, m, from, to, dir, neighbours);
    if slowed {
      return movesRemaining;
    }
    return MovementCostNoZOC(rules, m, from, to, dir, movesRemaining, maxMoves, multiplier, adder);
  }

  /** MovementCostSelectiveZOC: as MovementCost, with the ignore-list overload of
      the zone-of-control test. */
  method MovementCostSelectiveZOC(rules: Rules, m: Mover, from: Plot, to: Plot, dir: Direction,
                                  neighbours: seq<Option<Plot>>, movesRemaining: int, maxMoves: int,
                                  multiplier: Option<int>, adder: Option<int>, plotsToIgnore: seq<int>)
    returns (cost: int)
    requires |neighbours| == 6
    ensures Slowed(rules, Selective(plotsToIgnore), m, from, to, dir, neighbours) ==> cost == movesRemaining
    ensures !Slowed(rules, Selective(plotsToIgnore), m, from, to, dir, neighbours) ==>
      cost == MovementCostNoZOC(rules, m, from, to, dir, movesRemaining, maxMoves, multiplier, adder)
    ensures cost <= movesRemaining
  {
    var slowed := IsSlowedByZOC(rules, Selective(plotsToIgnore), m, from, to, dir, neighbours);
    if slowed {
      return movesRemaining;
    }
    return MovementCostNoZOC(rules, m, from, to, dir, movesRemaining, maxMoves, multiplier, adder);
  }

  /** A step that leaves more moves than the new domain allows costs exactly the
      excess: with 3 moves left, 1 allowed afterwards and a cost of 0.2 moves, the
      step costs 2 moves. */
  lemma DomainChangeClamp(rules: Rules, m: Mover, from: Plot, to: Plot, dir: Direction,
                          movesRemaining: int, maxMoves: int, multiplier: Option<int>, adder: Option<int>)
    requires 0 <= maxMoves
    requires GetCostsForMove(rules, m, from, to, dir, multiplier, adder) <= movesRemaining - maxMoves
    ensures MovementCostNoZOC(rules, m, from, to, dir, movesRemaining, maxMoves, multiplier, adder)
            == movesRemaining - maxMoves
  {
  }
}
