/** IsSlowedByZOC: whether a step passes an enemy zone of control, which makes the
    step use up all the unit's remaining moves. Only the two plots flanking the
    direction of the step are examined: a plot with an enemy city, or a plot with a
    hostile, visible, unembarked combat unit whose domain lets it control the step.

    The source has two overloads. The one taking a list of plots to ignore skips
    those plots and also counts barbarian-team units as hostile; the one without a
    list does not have the barbarian clause but skips units that are about to be
    removed (delayed death). Both are this one method, told apart by ZocVariant. */
module ZoneOfControl {
  import opened MovementTypes

  datatype ZocVariant = Plain | Selective(ignore: seq<int>)

  /** The directions of the two plots flanking a step: the neighbours of the step's
      direction on either side. */
  function FlankDirections(dir: Direction): (r: (Direction, Direction))
    ensures (r.0 + 5) % 6 == dir && (r.1 + 1) % 6 == dir
    ensures r.0 != dir && r.1 != dir && r.0 != r.1
  {
    ((dir + 1) % 6, (dir + 5) % 6)
  }

  /** The hostility test; `selective` adds the barbarian-team clause. */
  predicate Hostile(rules: Rules, selective: bool, m: Mover, o: Occupant) {
    (selective && o.team == rules.barbarianTeam) || o.team in m.team.atWarWith || o.alwaysHostile
  }

  /** A hostile unit of another domain controls the step only when it hovers, or is
      a sea unit and an end of the step needs embarkation; a land unit of the
      mover's own domain does not control a step that stays embarked. */
  predicate DomainControls(m: Mover, from: Plot, to: Plot, o: Occupant) {
    if o.domain != m.unit.domain then
      o.hovering || (o.domain == Sea && (to.needsEmbarkation || from.needsEmbarkation))
    else
      !(o.domain == Land && to.needsEmbarkation && from.needsEmbarkation)
  }

  /** Whether one entry of a flank plot's unit list exerts zone of control on the step. */
  predicate ExertsZoc(rules: Rules, selective: bool, m: Mover, from: Plot, to: Plot, node: UnitNode): (r: bool)
    ensures r ==> node.owner != m.unit.owner && node.occupant.Some?
    ensures r ==> m.team.id !in node.occupant.value.invisibleTo
    ensures r ==> node.occupant.value.isCombat && !node.occupant.value.isEmbarked
    ensures r ==> Hostile(rules, selective, m, node.occupant.value)
    ensures r && !selective ==> !node.occupant.value.isDelayedDeath
    ensures (r && node.occupant.value.domain == Land && m.unit.domain == Land) ==>
      !(from.needsEmbarkation && to.needsEmbarkation)
    ensures (r && node.occupant.value.domain == Sea && m.unit.domain == Land && !node.occupant.value.hovering) ==>
      from.needsEmbarkation || to.needsEmbarkation
  {
    && node.owner != m.unit.owner
    && node.occupant.Some?
    && (var o := node.occupant.value;
        && !(!selective && o.isDelayedDeath)
        && m.team.id !in o.invisibleTo
        && o.isCombat
        && !o.isEmbarked
        && Hostile(rules, selective, m, o)
        && DomainControls(m, from, to, o))
  }

  predicate Ignored(variant: ZocVariant, p: Plot) {
    variant.Selective? && p.index in variant.ignore
  }

  /** A flank plot triggers zone of control: it is not ignored, and it holds an
      enemy city or some unit that exerts zone of control. */
  predicate FlankTriggers(rules: Rules, variant: ZocVariant, m: Mover, from: Plot, to: Plot, p: Plot) {
    && !Ignored(variant, p)
    && (|| p.enemyCity
        || exists k | 0 <= k < |p.units| :: ExertsZoc(rules, variant.Selective?, m, from, to, p.units[k]))
  }

  predicate FlankAt(rules: Rules, variant: ZocVariant, m: Mover, from: Plot, to: Plot, flank: Option<Plot>) {
    flank.Some? && FlankTriggers(rules, variant, m, from, to, flank.value)
  }

  /** The specification of IsSlowedByZOC; `neighbours[d]` is the plot next to the
      origin in direction d (None off the map). */
  predicate Slowed(rules: Rules, variant: ZocVariant, m: Mover, from: Plot, to: Plot, dir: Direction,
                   neighbours: seq<Option<Plot>>)
    requires |neighbours| == 6
  {
    && !m.unit.ignoreZOC
    && rules.zoneOfControlEnabled > 0
    && (|| FlankAt(rules, variant, m, from, to, neighbours[FlankDirections(dir).0])
        || FlankAt(rules, variant, m, from, to, neighbours[FlankDirections(dir).1]))
  }

  method IsSlowedByZOC(rules: Rules, variant: ZocVariant, m: Mover, from: Plot, to: Plot, dir: Direction,
                       neighbours: seq<Option<Plot>>) returns (slowed: bool)
    requires |neighbours| == 6
    ensures slowed == Slowed(rules, variant, m, from, to, dir, neighbours)
    ensures (m.unit.ignoreZOC || rules.zoneOfControlEnabled <= 0) ==> !slowed
  {
    if m.unit.ignoreZOC {
      return false;
    }
    if rules.zoneOfControlEnabled <= 0 {
      return false;
    }
    var right := (dir + 1) % 6;
    var left := (dir + 5) % 6;
    var plotsToCheck := [neighbours[right], neighbours[left]];
    var count := 0;
    while count < 2
      invariant 0 <= count <= 2
      invariant forall c :: 0 <= c < count ==> !FlankAt(rules, variant, m, from, to, plotsToCheck[c])
    {
      var adj := plotsToCheck[count];
      if adj.None? {
        count := count + 1;
        continue;
      }
      var p := adj.value;
      if variant.Selective? && p.index in variant.ignore {
        count := count + 1;
        continue;
      }
      if p.enemyCity {
        return true;
      }
      var k := 0;
      while k < |p.units|
        invariant 0 <= k <= |p.units|
        invariant forall j :: 0 <= j < k ==> !ExertsZoc(rules, variant.Selective?, m, from, to, p.units[j])
      {
        var node := p.units[k];
        k := k + 1;
        if node.owner == m.unit.owner {
          continue;
        }
        if node.occupant.None? {
          continue;
        }
        var o := node.occupant.value;
        if variant.Plain? && o.isDelayedDeath {
          continue;
        }
        if m.team.id in o.invisibleTo {
          continue;
        }
        if !o.isCombat {
          continue;
        }
        if o.isEmbarked {
          continue;
        }
        if (variant.Selective? && o.team == rules.barbarianTeam) || o.team in m.team.atWarWith || o.alwaysHostile {
          if o.domain != m.unit.domain {
            if o.hovering {
              // hovering units always exert zone of control
            } else if o.domain == Sea && (to.needsEmbarkation || from.needsEmbarkation) {
              // a sea unit controls an embarked land unit
            } else {
              continue;
            }
          } else {
            if o.domain == Land && to.needsEmbarkation && from.needsEmbarkation {
              continue;
            }
          }
          return true;
        }
      }
      count := count + 1;
    }
    assert plotsToCheck[0] == neighbours[FlankDirections(dir).0];
    assert plotsToCheck[1] == neighbours[FlankDirections(dir).1];
    return false;
  }

  /** Only the two flank plots matter: neighbour tables that agree on them give the
      same answer, whatever stands anywhere else. */
  lemma OnlyFlanksMatter(rules: Rules, variant: ZocVariant, m: Mover, from: Plot, to: Plot, dir: Direction,
                         n1: seq<Option<Plot>>, n2: seq<Option<Plot>>)
    requires |n1| == 6 && |n2| == 6
    requires n1[(dir + 1) % 6] == n2[(dir + 1) % 6] && n1[(dir + 5) % 6] == n2[(dir + 5) % 6]
    ensures Slowed(rules, variant, m, from, to, dir, n1) == Slowed(rules, variant, m, from, to, dir, n2)
  {
  }

  /** Ignoring more plots can turn "slowed" into "not slowed", never the reverse. */
  lemma IgnoreListMonotone(rules: Rules, m: Mover, from: Plot, to: Plot, dir: Direction,
                           neighbours: seq<Option<Plot>>, fewer: seq<int>, more: seq<int>)
    requires |neighbours| == 6
    requires forall i :: i in fewer ==> i in more
    ensures Slowed(rules, Selective(more), m, from, to, dir, neighbours) ==>
            Slowed(rules, Selective(fewer), m, from, to, dir, neighbours)
  {
  }

  /** The overloads differ on a barbarian-team unit its team is not at war with: the
      one with the ignore list counts it, the other does not. */
  lemma BarbarianCountsOnlyWithIgnoreList(rules: Rules, m: Mover, from: Plot, to: Plot, node: UnitNode)
    requires node.owner != m.unit.owner && node.occupant.Some?
    requires node.occupant.value.team == rules.barbarianTeam
    requires rules.barbarianTeam !in m.team.atWarWith && !node.occupant.value.alwaysHostile
    requires m.team.id !in node.occupant.value.invisibleTo
    requires node.occupant.value.isCombat && !node.occupant.value.isEmbarked
    requires DomainControls(m, from, to, node.occupant.value)
    ensures ExertsZoc(rules, true, m, from, to, node)
    ensures !ExertsZoc(rules, false, m, from, to, node)
  {
  }

  /** The overloads differ on a unit about to be removed: only the one without an
      ignore list skips it. */
  lemma DelayedDeathSkippedOnlyWithoutIgnoreList(rules: Rules, m: Mover, from: Plot, to: Plot, node: UnitNode)
    requires node.owner != m.unit.owner && node.occupant.Some?
    requires node.occupant.value.isDelayedDeath
    requires node.occupant.value.team in m.team.atWarWith
    requires m.team.id !in node.occupant.value.invisibleTo
    requires node.occupant.value.isCombat && !node.occupant.value.isEmbarked
    requires DomainControls(m, from, to, node.occupant.value)
    ensures ExertsZoc(rules, true, m, from, to, node)
    ensures !ExertsZoc(rules, false, m, from, to, node)
  {
  }

  /** No unit on the plot is of the barbarian team or about to be removed. */
  predicate NoBarbarianOrDoomed(rules: Rules, p: Plot) {
    forall k | 0 <= k < |p.units| ::
      p.units[k].occupant.Some? ==>
        p.units[k].occupant.value.team != rules.barbarianTeam && !p.units[k].occupant.value.isDelayedDeath
  }

  predicate FlankHasNoBarbarianOrDoomed(rules: Rules, flank: Option<Plot>) {
    flank.Some? ==> NoBarbarianOrDoomed(rules, flank.value)
  }

  /** Without barbarian-team or doomed units on the flanks, the ignore-list overload
      with an empty list and the plain overload agree. */
  lemma OverloadsAgreeWithoutBarbariansOrDoomed(rules: Rules, m: Mover, from: Plot, to: Plot, dir: Direction,
                                                 neighbours: seq<Option<Plot>>)
    requires |neighbours| == 6
    requires FlankHasNoBarbarianOrDoomed(rules, neighbours[(dir + 1) % 6])
    requires FlankHasNoBarbarianOrDoomed(rules, neighbours[(dir + 5) % 6])
    ensures Slowed(rules, Selective([]), m, from, to, dir, neighbours) == Slowed(rules, Plain, m, from, to, dir, neighbours)
  {
    forall flank | flank == neighbours[(dir + 1) % 6] || flank == neighbours[(dir + 5) % 6]
      ensures FlankAt(rules, Selective([]), m, from, to, flank) == FlankAt(rules, Plain, m, from, to, flank)
    {
      if flank.Some? {
        var p := flank.value;
        forall k | 0 <= k < |p.units|
          ensures ExertsZoc(rules, true, m, from, to, p.units[k]) == ExertsZoc(rules, false, m, from, to, p.units[k])
        {
        }
      }
    }
  }
}
