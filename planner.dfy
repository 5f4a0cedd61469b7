/**
  The computer opponent: its scoring rules (distance to the nearest enemy,
  threat on a cell, threat on its own units, protected buildings), its choices
  (military unit, attack target, build, defence and move positions) and the
  three phases it plays through the board's public operations.

  The source iterates Swift sets, whose order is unspecified; the loops here
  pick elements with `:|`, so every choice is stated as "some optimal
  element" and every sum as an order-free fold.
*/
module Planner {
  import opened Hex
  import opened Units
  import opened Board
  import opened Options
  import opened Folds

  /** Swift's `Int.max` on a 64-bit platform, returned when there is no enemy. */
  const IntMax: int := 0x7fff_ffff_ffff_ffff

  datatype AIDifficulty = Ultra

  // Scoring rules.

  /** The distance from a fixed cell. */
  function DistanceFrom(pos: Coord): Coord -> int
  {
    c => Distance(pos, c)
  }

  /** `distanceToNearestEnemy`: the least distance to a living enemy, or Int.max if none is left. */
  ghost function NearestEnemyDistance(pos: Coord, units: map<Coord, Unit>, side: Side): int
  {
    var enemies := LivingUnits(units, Opponent(side));
    if enemies == {} then IntMax else MinOver(enemies, DistanceFrom(pos))
  }

  /** The nearest-enemy distance is attained by some living enemy and no enemy is closer. */
  lemma NearestEnemyIsNearest(pos: Coord, units: map<Coord, Unit>, side: Side)
    ensures LivingUnits(units, Opponent(side)) == {} ==> NearestEnemyDistance(pos, units, side) == IntMax
    ensures LivingUnits(units, Opponent(side)) != {} ==>
      (exists e :: e in LivingUnits(units, Opponent(side)) && NearestEnemyDistance(pos, units, side) == Distance(pos, e)) &&
      (forall e :: e in LivingUnits(units, Opponent(side)) ==> NearestEnemyDistance(pos, units, side) <= Distance(pos, e))
  {
    var enemies := LivingUnits(units, Opponent(side));
    if enemies != {} {
      MinOverIsLeast(enemies, DistanceFrom(pos));
    }
  }

  /** The attack an enemy at e adds to the threat on pos: its attack if pos is within its move plus attack range. */
  function ThreatTerm(pos: Coord, units: map<Coord, Unit>): Coord -> int
  {
    e => if e in units && Distance(pos, e) <= units[e].stats.attackRange + units[e].stats.movementRange
         then units[e].stats.attack else 0
  }

  /** `calculatePositionThreat`: the summed attack of every living enemy that can reach pos. */
  ghost function PositionThreat(pos: Coord, units: map<Coord, Unit>, side: Side): int
  {
    SumOver(LivingUnits(units, Opponent(side)), ThreatTerm(pos, units))
  }

  /** With non-negative attacks the threat is non-negative, and it is zero when no enemy reaches pos. */
  lemma PositionThreatBounds(pos: Coord, units: map<Coord, Unit>, side: Side)
    requires forall e :: e in units ==> units[e].stats.attack >= 0
    ensures PositionThreat(pos, units, side) >= 0
    ensures (forall e :: e in LivingUnits(units, Opponent(side)) ==> ThreatTerm(pos, units)(e) == 0) ==>
      PositionThreat(pos, units, side) == 0
  {
    var enemies := LivingUnits(units, Opponent(side));
    SumOverNonNegative(enemies, ThreatTerm(pos, units));
    if forall e :: e in enemies ==> ThreatTerm(pos, units)(e) == 0 {
      SumOverZero(enemies, ThreatTerm(pos, units));
    }
  }

  /** A sum of zeros is zero. */
  lemma {:induction false} SumOverZero(s: set<Coord>, f: Coord -> int)
    requires forall x :: x in s ==> f(x) == 0
    ensures SumOver(s, f) == 0
    decreases |s|
  {
    if s != {} {
      SumOverZero(s - {Pick(s)}, f);
    }
  }

  /** What one attackable cell adds to the threat level: 1 for an own unit, 3 for an own house. */
  function ThreatWeight(units: map<Coord, Unit>, side: Side): Coord -> int
  {
    t => if t in units && units[t].owner == side then (if units[t].kind == House then 3 else 1) else 0
  }

  /** What one enemy adds to the threat level: the weights of the cells it can attack. */
  ghost function EnemyThreat(units: map<Coord, Unit>, side: Side): Coord -> int
  {
    e => if e in units then SumOver(Targets(units[e], e, units), ThreatWeight(units, side)) else 0
  }

  /** `assessThreatLevel`: the weights summed over every living enemy's targets. */
  ghost function ThreatLevel(units: map<Coord, Unit>, side: Side): int
  {
    SumOver(LivingUnits(units, Opponent(side)), EnemyThreat(units, side))
  }

  /** Every target of a living enemy is an own unit, so it weighs 3 if it is a house and 1 otherwise. */
  lemma TargetWeights(units: map<Coord, Unit>, side: Side, e: Coord, t: Coord)
    requires e in LivingUnits(units, Opponent(side)) && t in Targets(units[e], e, units)
    ensures ThreatWeight(units, side)(t) == if units[t].kind == House then 3 else 1
  {
    OpponentInvolution(side);
  }

  /** When no living enemy has a target, the threat level is zero. */
  lemma NoTargetsNoThreat(units: map<Coord, Unit>, side: Side)
    requires forall e :: e in LivingUnits(units, Opponent(side)) ==> Targets(units[e], e, units) == {}
    ensures ThreatLevel(units, side) == 0
  {
    var enemies := LivingUnits(units, Opponent(side));
    forall e | e in enemies
      ensures EnemyThreat(units, side)(e) == 0
    {
      assert Targets(units[e], e, units) == {};
    }
    SumOverZero(enemies, EnemyThreat(units, side));
  }

  /** The own buildings a tower at pos would cover: those within distance 2. */
  function ProtectedBuildings(pos: Coord, units: map<Coord, Unit>, side: Side): set<Coord>
  {
    set b | b in LivingUnits(units, side) && IsBuilding(units[b].kind) && Distance(pos, b) <= 2
  }

  /** `countProtectedBuildings`. */
  function CountProtectedBuildings(pos: Coord, units: map<Coord, Unit>, side: Side): nat
  {
    |ProtectedBuildings(pos, units, side)|
  }

  /** The count never exceeds the side's buildings and counts every building within distance 2. */
  lemma ProtectedBuildingsBounds(pos: Coord, units: map<Coord, Unit>, side: Side, b: Coord)
    ensures CountProtectedBuildings(pos, units, side) <= |LivingUnits(units, side)|
    ensures b in LivingUnits(units, side) && IsBuilding(units[b].kind) && Distance(pos, b) <= 2 ==>
      b in ProtectedBuildings(pos, units, side)
  {
    SubsetSize(ProtectedBuildings(pos, units, side), LivingUnits(units, side));
  }

  lemma {:induction false} SubsetSize(a: set<Coord>, b: set<Coord>)
    requires a <= b
    ensures |a| <= |b|
    decreases |b|
  {
    if a != {} {
      var x :| x in a;
      SubsetSize(a - {x}, b - {x});
    }
  }

  // Choices.

  /** `chooseOptimalMilitaryUnit`: the gold tiers 100, 50 and 25. */
  function ChooseOptimalMilitaryUnit(gold: int): (k: UnitKind)
    ensures IsSoldier(k)
  {
    if gold >= 100 then Champion
    else if gold >= 50 then Knight
    else if gold >= 25 then Warrior
    else Scout
  }

  /**
    The gold tiers are the soldiers' costs: with at least a scout's cost in
    hand, the choice is the costliest soldier the gold can pay for.
  */
  lemma MilitaryChoiceIsCostliestAffordable(gold: int, other: UnitKind)
    requires gold >= BaseStats(Scout).cost
    ensures BaseStats(ChooseOptimalMilitaryUnit(gold)).cost <= gold
    ensures IsSoldier(other) && BaseStats(other).cost <= gold ==>
      BaseStats(other).cost <= BaseStats(ChooseOptimalMilitaryUnit(gold)).cost
  {
  }

  /** The first cell of xs holding a unit that satisfies p. */
  function FirstWhere(xs: seq<Coord>, units: map<Coord, Unit>, p: Unit -> bool): (r: Option<Coord>)
    ensures r.None? <==> forall i :: 0 <= i < |xs| ==> xs[i] !in units || !p(units[xs[i]])
    ensures r.Some? ==> r.value in xs && r.value in units && p(units[r.value])
  {
    if |xs| == 0 then None
    else if xs[0] in units && p(units[xs[0]]) then Some(xs[0])
    else
      var r := FirstWhere(xs[1..], units, p);
      assert forall i :: 1 <= i < |xs| ==> xs[i] == xs[1..][i - 1];
      r
  }

  /**
    Swift's `min(by:)` over the occupied cells of xs for the key: the first
    cell whose key is least.
  */
  function FirstMinBy(xs: seq<Coord>, units: map<Coord, Unit>, key: Unit -> int): (r: Option<Coord>)
    ensures r.None? <==> forall i :: 0 <= i < |xs| ==> xs[i] !in units
    ensures r.Some? ==> (r.value in xs && r.value in units &&
      forall i :: 0 <= i < |xs| && xs[i] in units ==> key(units[r.value]) <= key(units[xs[i]]))
  {
    if |xs| == 0 then None
    else
      var front := xs[..|xs| - 1];
      var x := xs[|xs| - 1];
      var r := FirstMinBy(front, units, key);
      assert forall i :: 0 <= i < |front| ==> xs[i] == front[i];
      if x !in units then r
      else if r.None? || key(units[x]) < key(units[r.value]) then Some(x)
      else r
  }

  /**
    Swift's `max(by:)` over the occupied cells of xs for the key: a later
    cell replaces the running result unless its key is smaller, so on a tie
    the last cell whose key is greatest.
  */
  function LastMaxBy(xs: seq<Coord>, units: map<Coord, Unit>, key: Unit -> int): (r: Option<Coord>)
    ensures r.None? <==> forall i :: 0 <= i < |xs| ==> xs[i] !in units
    ensures r.Some? ==> (r.value in xs && r.value in units &&
      forall i :: 0 <= i < |xs| && xs[i] in units ==> key(units[xs[i]]) <= key(units[r.value]))
  {
    if |xs| == 0 then None
    else
      var front := xs[..|xs| - 1];
      var x := xs[|xs| - 1];
      var r := LastMaxBy(front, units, key);
      assert forall i :: 0 <= i < |front| ==> xs[i] == front[i];
      if x !in units then r
      else if r.None? || key(units[r.value]) <= key(units[x]) then Some(x)
      else r
  }

  /** The cells of xs holding a unit with at most 30 health. */
  function Weak(xs: seq<Coord>, units: map<Coord, Unit>): (ws: seq<Coord>)
    ensures forall c :: c in ws <==> c in xs && c in units && units[c].health <= 30
  {
    if |xs| == 0 then []
    else (if xs[0] in units && units[xs[0]].health <= 30 then [xs[0]] else []) + Weak(xs[1..], units)
  }

  /**
    `chooseBestTarget`: among the target cells that hold a unit, the first
    house; else the first unit of least health among those with at most 30
    health; else the last unit of greatest cost.
  */
  function ChooseBestTarget(targets: seq<Coord>, units: map<Coord, Unit>): Option<Coord>
  {
    var house := FirstWhere(targets, units, (u: Unit) => u.kind == House);
    if house.Some? then house
    else
      var weak := FirstMinBy(Weak(targets, units), units, (u: Unit) => u.health);
      if weak.Some? then weak
      else LastMaxBy(targets, units, (u: Unit) => u.stats.cost)
  }

  /**
    The target priority: nothing exactly when no target cell holds a unit;
    otherwise one of the targets, a house if any target is a house, else a
    least-health unit among those with at most 30 health if there is one,
    else a greatest-cost unit.
  */
  lemma TargetPriority(targets: seq<Coord>, units: map<Coord, Unit>)
    ensures var r := ChooseBestTarget(targets, units);
      (r.None? <==> forall c :: c in targets ==> c !in units) &&
      (r.Some? ==> r.value in targets && r.value in units) &&
      ((exists c :: c in targets && c in units && units[c].kind == House) ==> r.Some? && units[r.value].kind == House) &&
      ((forall c :: c in targets && c in units ==> units[c].kind != House) &&
       (exists c :: c in targets && c in units && units[c].health <= 30) ==>
         r.Some? && units[r.value].health <= 30 &&
         forall c :: c in targets && c in units && units[c].health <= 30 ==> units[r.value].health <= units[c].health) &&
      ((forall c :: c in targets && c in units ==> units[c].kind != House && units[c].health > 30) && r.Some? ==>
         forall c :: c in targets && c in units ==> units[c].stats.cost <= units[r.value].stats.cost)
  {
    var house := FirstWhere(targets, units, (u: Unit) => u.kind == House);
    var ws := Weak(targets, units);
    var weak := FirstMinBy(ws, units, (u: Unit) => u.health);
    var most := LastMaxBy(targets, units, (u: Unit) => u.stats.cost);
    if house.None? && weak.Some? {
      forall c | c in targets && c in units && units[c].health <= 30
        ensures units[weak.value].health <= units[c].health
      {
        var i :| 0 <= i < |ws| && ws[i] == c;
      }
    }
    if house.None? && weak.None? {
      forall c | c in targets && c in units
        ensures units[c].stats.cost <= units[most.value].stats.cost
      {
        var i :| 0 <= i < |targets| && targets[i] == c;
      }
    }
  }

  /**
    The cells `chooseBestTarget` may pick among the occupied target cells T:
    a house when T holds one; else a least-health unit among those with at
    most 30 health when there is one; else a unit of greatest cost. Ties are
    left open, as the order in which T is listed is.
  */
  predicate PreferredTarget(t: Coord, T: set<Coord>, units: map<Coord, Unit>)
  {
    t in T && t in units &&
    ((exists c :: c in T && c in units && units[c].kind == House) ==> units[t].kind == House) &&
    ((forall c :: c in T && c in units ==> units[c].kind != House) &&
     (exists c :: c in T && c in units && units[c].health <= 30) ==>
       units[t].health <= 30 &&
       forall c :: c in T && c in units && units[c].health <= 30 ==> units[t].health <= units[c].health) &&
    ((forall c :: c in T && c in units ==> units[c].kind != House && units[c].health > 30) ==>
       forall c :: c in T && c in units ==> units[c].stats.cost <= units[t].stats.cost)
  }

  /** In whatever order a set of occupied targets is listed, `chooseBestTarget` picks a preferred one. */
  lemma BestTargetIsPreferred(xs: seq<Coord>, T: set<Coord>, units: map<Coord, Unit>)
    requires forall c :: c in xs <==> c in T
    requires forall c :: c in T ==> c in units
    ensures ChooseBestTarget(xs, units).None? <==> T == {}
    ensures T != {} ==> PreferredTarget(ChooseBestTarget(xs, units).value, T, units)
  {
    TargetPriority(xs, units);
  }

  /**
    One attacker's turn of `performCombatPhase`, from `units` to `after`: when
    the unit at `at` belongs to the side to move and has a target, it attacks
    a preferred target; otherwise nothing changes.
  */
  ghost predicate AttackStep(units: map<Coord, Unit>, at: Coord, current: Side, after: map<Coord, Unit>)
  {
    if at in units && units[at].owner == current && Targets(units[at], at, units) != {} then
      exists t :: PreferredTarget(t, Targets(units[at], at, units), units) && after == AfterAttack(units, at, t)
    else after == units
  }

  /** `possibleMoves` of the unit at `at`: the cells its flood fill reaches, or none. */
  ghost function MovesFrom(valid: set<Coord>, units: map<Coord, Unit>, at: Coord): set<Coord>
  {
    if at in units && CanMove(units[at]) && units[at].stats.movementRange >= 1
    then Ball(valid, units, at, units[at].stats.movementRange) - {at}
    else {}
  }

  /**
    One unit's turn of `performMovePhase`, from `units` to `after`: when the
    unit at `at` belongs to the side to move and has somewhere to go, it moves
    to a reachable cell nearest to side's enemies; otherwise nothing changes.
  */
  ghost predicate MoveStep(valid: set<Coord>, units: map<Coord, Unit>, at: Coord, current: Side, side: Side,
                           after: map<Coord, Unit>)
  {
    var moves := MovesFrom(valid, units, at);
    if at in units && units[at].owner == current && moves != {} then
      exists to :: to in moves && after == AfterMove(units, at, to) &&
        forall c :: c in moves ==> NearestEnemyDistance(to, units, side) <= NearestEnemyDistance(c, units, side)
    else after == units
  }

  /** A trace of moves in which each unit of order takes its step. */
  ghost predicate MoveTrace(valid: set<Coord>, trace: seq<map<Coord, Unit>>, order: seq<Coord>, current: Side, side: Side)
  {
    |trace| == |order| + 1 &&
    forall i :: 0 <= i < |order| ==> MoveStep(valid, trace[i], order[i], current, side, trace[i + 1])
  }

  /** One more step extends a trace of moves. */
  lemma MoveTraceExtend(valid: set<Coord>, trace: seq<map<Coord, Unit>>, order: seq<Coord>, current: Side, side: Side,
                        at: Coord, after: map<Coord, Unit>)
    requires MoveTrace(valid, trace, order, current, side)
    requires MoveStep(valid, trace[|order|], at, current, side, after)
    ensures MoveTrace(valid, trace + [after], order + [at], current, side)
  {
    var t, o := trace + [after], order + [at];
    forall i | 0 <= i < |o|
      ensures MoveStep(valid, t[i], o[i], current, side, t[i + 1])
    {
      if i < |order| {
        assert t[i] == trace[i] && t[i + 1] == trace[i + 1] && o[i] == order[i];
      }
    }
  }

  /** A trace of attacks in which each unit of order takes its turn. */
  ghost predicate AttackTrace(trace: seq<map<Coord, Unit>>, order: seq<Coord>, current: Side)
  {
    |trace| == |order| + 1 &&
    forall i :: 0 <= i < |order| ==> AttackStep(trace[i], order[i], current, trace[i + 1])
  }

  /** One more turn extends a trace of attacks. */
  lemma AttackTraceExtend(trace: seq<map<Coord, Unit>>, order: seq<Coord>, current: Side, at: Coord, after: map<Coord, Unit>)
    requires AttackTrace(trace, order, current)
    requires AttackStep(trace[|order|], at, current, after)
    ensures AttackTrace(trace + [after], order + [at], current)
  {
    var t, o := trace + [after], order + [at];
    forall i | 0 <= i < |o|
      ensures AttackStep(t[i], o[i], current, t[i + 1])
    {
      if i < |order| {
        assert t[i] == trace[i] && t[i + 1] == trace[i + 1] && o[i] == order[i];
      }
    }
  }

  /** The free neighbours of a set of cells: where the source looks for a place to build. */
  ghost function BuildCandidates(valid: set<Coord>, units: map<Coord, Unit>, side: Side): set<Coord>
  {
    Step(valid, units, LivingUnits(units, side))
  }

  /** The score a build position minimises: threat for a house, nearest-enemy distance otherwise. */
  ghost function BuildScore(kind: UnitKind, pos: Coord, units: map<Coord, Unit>, side: Side): int
  {
    if kind == House then PositionThreat(pos, units, side) else NearestEnemyDistance(pos, units, side)
  }

  /** Valid empty cells within distance 2 of some cell of houses. */
  ghost function DefenseCandidates(valid: set<Coord>, units: map<Coord, Unit>, houses: set<Coord>): set<Coord>
  {
    set c | c in valid && c !in units && exists h :: h in houses && 1 <= Distance(h, c) <= 2
  }

  /** Adding one house adds the valid empty cells of its ring. */
  lemma DefenseCandidatesAdd(valid: set<Coord>, units: map<Coord, Unit>, houses: set<Coord>, h: Coord, ring: set<Coord>)
    requires forall c :: c in ring <==> 1 <= Distance(h, c) <= 2
    ensures DefenseCandidates(valid, units, houses + {h}) ==
      DefenseCandidates(valid, units, houses) + (set c | c in ring && c in valid && c !in units)
  {
  }

  /** Moving to the next phase, the end of the turn included, keeps every unit's stats sane. */
  lemma NextPhaseKeepsSane(s: GameState)
    requires AllSane(s.units)
    ensures AllSane(NextPhaseState(s).units)
  {
    if s.turnPhase == EndTurn {
      var reset := ResetSide(s.units, s.currentPlayer);
      forall p | p in reset
        ensures SaneStats(reset[p])
      {
        assert SaneStats(s.units[p]);
      }
    }
  }

  // The build attempts of the build phase.

  /** The gold of one side in a game state. */
  function SideGold(s: GameState, side: Side): int
  {
    if side == Player1 then s.player1Gold else s.player2Gold
  }

  /**
    What one `buildUnit` call does to the game state, if a position was found:
    on a valid empty cell the side can pay for, the unit is created there and
    its cost is paid; otherwise nothing changes.
  */
  function TryBuild(s: GameState, valid: set<Coord>, kind: UnitKind, at: Option<Coord>, side: Side): GameState
  {
    if at.Some? && at.value in valid && at.value !in s.units && SideGold(s, side) >= GetUnitCost(s.units, kind, side) then
      var cost := GetUnitCost(s.units, kind, side);
      var units := s.units[at.value := Create(kind, side)];
      if side == Player1 then s.(units := units, player1Gold := s.player1Gold - cost)
      else s.(units := units, player2Gold := s.player2Gold - cost)
    else s
  }

  /**
    A build attempt keeps the turn, the other side's gold and every unit on
    the map; it adds at most the one new unit, of the builder's side; when it
    builds, the builder pays exactly the cost and keeps a non-negative gold;
    and it keeps every unit's stats sane.
  */
  lemma TryBuildOutcome(s: GameState, valid: set<Coord>, kind: UnitKind, at: Option<Coord>, side: Side)
    ensures var t := TryBuild(s, valid, kind, at, side);
      var built := at.Some? && at.value in valid && at.value !in s.units && SideGold(s, side) >= GetUnitCost(s.units, kind, side);
      t.currentPlayer == s.currentPlayer && t.turnPhase == s.turnPhase && t.turnNumber == s.turnNumber &&
      SideGold(t, Opponent(side)) == SideGold(s, Opponent(side)) &&
      (forall p :: p in s.units ==> p in t.units && t.units[p] == s.units[p]) &&
      (built ==> t.units == s.units[at.value := Create(kind, side)] &&
                 SideGold(t, side) == SideGold(s, side) - GetUnitCost(s.units, kind, side) && SideGold(t, side) >= 0) &&
      (!built ==> t == s) &&
      (AllSane(s.units) ==> AllSane(t.units))
  {
    OpponentInvolution(side);
  }

  /** Some element of s, listed once each, in an unspecified order. */
  method Enumerate(s: set<Coord>) returns (xs: seq<Coord>)
    ensures forall x :: x in xs <==> x in s
    ensures forall i, j :: 0 <= i < j < |xs| ==> xs[i] != xs[j]
    ensures multiset(xs) == multiset(s)
  {
    xs := [];
    var todo := s;
    while todo != {}
      invariant forall x :: x in s <==> x in todo || x in xs
      invariant forall x :: x in xs ==> x !in todo
      invariant todo <= s && multiset(xs) + multiset(todo) == multiset(s)
      invariant forall i, j :: 0 <= i < j < |xs| ==> xs[i] != xs[j]
      decreases |todo|
    {
      var x :| x in todo;
      xs := xs + [x];
      todo := todo - {x};
    }
  }

  // The attack-order sort of the combat phase.

  /** The attack of the unit at c, or 0 for an empty cell. */
  function AttackAt(units: map<Coord, Unit>, c: Coord): int
  {
    if c in units then units[c].stats.attack else 0
  }

  /** Highest attack first. */
  predicate ByAttackDescending(xs: seq<Coord>, units: map<Coord, Unit>)
  {
    forall i, j :: 0 <= i < j < |xs| ==> AttackAt(units, xs[i]) >= AttackAt(units, xs[j])
  }

  /** x inserted after every element whose attack is at least its own. */
  function InsertByAttack(xs: seq<Coord>, x: Coord, units: map<Coord, Unit>): (r: seq<Coord>)
    ensures multiset(r) == multiset(xs) + multiset{x}
  {
    if |xs| == 0 then [x]
    else if AttackAt(units, xs[0]) >= AttackAt(units, x) then
      assert xs == [xs[0]] + xs[1..];
      [xs[0]] + InsertByAttack(xs[1..], x, units)
    else [x] + xs
  }

  /** Inserting into a list ordered by descending attack keeps it ordered. */
  lemma {:induction false} InsertKeepsOrder(xs: seq<Coord>, x: Coord, units: map<Coord, Unit>)
    requires ByAttackDescending(xs, units)
    ensures ByAttackDescending(InsertByAttack(xs, x, units), units)
    decreases |xs|
  {
    if |xs| > 0 && AttackAt(units, xs[0]) >= AttackAt(units, x) {
      var tail := xs[1..];
      InsertKeepsOrder(tail, x, units);
      var rest := InsertByAttack(tail, x, units);
      HeadDominates(xs, units);
      forall j | 0 <= j < |rest|
        ensures AttackAt(units, xs[0]) >= AttackAt(units, rest[j])
      {
        assert rest[j] in multiset(rest);
      }
      PrependKeepsOrder(xs[0], rest, units);
    }
  }

  /** The head of an ordered list has the greatest attack. */
  lemma HeadDominates(xs: seq<Coord>, units: map<Coord, Unit>)
    requires ByAttackDescending(xs, units) && |xs| > 0
    ensures forall y :: y in multiset(xs[1..]) ==> AttackAt(units, xs[0]) >= AttackAt(units, y)
  {
    forall y | y in multiset(xs[1..])
      ensures AttackAt(units, xs[0]) >= AttackAt(units, y)
    {
      var k :| 0 <= k < |xs[1..]| && xs[1..][k] == y;
      assert xs[k + 1] == y;
    }
  }

  /** A first element with at least the attack of every other keeps an ordered list ordered. */
  lemma PrependKeepsOrder(h: Coord, rest: seq<Coord>, units: map<Coord, Unit>)
    requires ByAttackDescending(rest, units)
    requires forall j :: 0 <= j < |rest| ==> AttackAt(units, h) >= AttackAt(units, rest[j])
    ensures ByAttackDescending([h] + rest, units)
  {
    var r := [h] + rest;
    forall i, j | 0 <= i < j < |r|
      ensures AttackAt(units, r[i]) >= AttackAt(units, r[j])
    {
      assert r[j] == rest[j - 1];
      if i > 0 {
        assert r[i] == rest[i - 1];
      }
    }
  }

  /** `sorted { $0.attack > $1.attack }`: the attackers, highest attack first. */
  method SortByAttack(xs: seq<Coord>, units: map<Coord, Unit>) returns (ys: seq<Coord>)
    ensures multiset(ys) == multiset(xs)
    ensures ByAttackDescending(ys, units)
  {
    ys := [];
    var i := 0;
    while i < |xs|
      invariant 0 <= i <= |xs|
      invariant multiset(ys) == multiset(xs[..i])
      invariant ByAttackDescending(ys, units)
    {
      InsertKeepsOrder(ys, xs[i], units);
      ys := InsertByAttack(ys, xs[i], units);
      assert xs[..i + 1] == xs[..i] + [xs[i]];
      i := i + 1;
    }
    assert xs[..|xs|] == xs;
  }

  // The planner.

  class GameAI {
    const difficulty: AIDifficulty
    const playerSide: Side

    constructor (difficulty: AIDifficulty := Ultra, playerSide: Side := Player2)
      ensures this.difficulty == difficulty && this.playerSide == playerSide
    {
      this.difficulty := difficulty;
      this.playerSide := playerSide;
    }

    /** `distanceToNearestEnemy`, one enemy at a time. */
    method DistanceToNearestEnemy(pos: Coord, units: map<Coord, Unit>) returns (d: int)
      ensures d == NearestEnemyDistance(pos, units, playerSide)
    {
      var enemies := LivingUnits(units, Opponent(playerSide));
      if enemies == {} {
        return IntMax;
      }
      var first :| first in enemies;
      d := Distance(pos, first);
      ghost var closest := first;
      var todo := enemies - {first};
      while todo != {}
        invariant todo <= enemies && closest in enemies && closest !in todo
        invariant d == Distance(pos, closest)
        invariant forall e :: e in enemies && e !in todo ==> d <= Distance(pos, e)
        decreases |todo|
      {
        var e :| e in todo;
        if Distance(pos, e) < d {
          d := Distance(pos, e);
          closest := e;
        }
        todo := todo - {e};
      }
      MinOverUnique(enemies, DistanceFrom(pos), d);
    }

    /** `calculatePositionThreat`, one enemy at a time. */
    method CalculatePositionThreat(pos: Coord, units: map<Coord, Unit>) returns (threat: int)
      ensures threat == PositionThreat(pos, units, playerSide)
    {
      var enemies := LivingUnits(units, Opponent(playerSide));
      threat := 0;
      var todo := enemies;
      while todo != {}
        invariant todo <= enemies
        invariant threat == SumOver(enemies - todo, ThreatTerm(pos, units))
        decreases |todo|
      {
        var e :| e in todo;
        var enemy := units[e];
        if Distance(pos, e) <= enemy.stats.attackRange + enemy.stats.movementRange {
          threat := threat + enemy.stats.attack;
        }
        SumOverStep(enemies, todo, ThreatTerm(pos, units), e);
        todo := todo - {e};
      }
      assert enemies - todo == enemies;
    }

    /** The inner loop of `assessThreatLevel`: the weights of one enemy's targets. */
    method WeighTargets(targets: set<Coord>, units: map<Coord, Unit>) returns (weight: int)
      ensures weight == SumOver(targets, ThreatWeight(units, playerSide))
    {
      weight := 0;
      var todo := targets;
      while todo != {}
        invariant todo <= targets
        invariant weight == SumOver(targets - todo, ThreatWeight(units, playerSide))
        decreases |todo|
      {
        var t :| t in todo;
        if t in units && units[t].owner == playerSide {
          weight := weight + 1;
          if units[t].kind == House {
            weight := weight + 2;
          }
        }
        SumOverStep(targets, todo, ThreatWeight(units, playerSide), t);
        todo := todo - {t};
      }
      assert targets - todo == targets;
    }

    /** `assessThreatLevel`, one enemy at a time. */
    method AssessThreatLevel(units: map<Coord, Unit>) returns (level: int)
      requires forall e :: e in LivingUnits(units, Opponent(playerSide)) && CanAttack(units[e]) ==>
        units[e].stats.attackRange >= 0
      ensures level == ThreatLevel(units, playerSide)
    {
      var enemies := LivingUnits(units, Opponent(playerSide));
      level := 0;
      var todo := enemies;
      while todo != {}
        invariant todo <= enemies
        invariant level == SumOver(enemies - todo, EnemyThreat(units, playerSide))
        decreases |todo|
      {
        var e :| e in todo;
        var targets := PossibleTargets(units[e], e, units);
        var weight := WeighTargets(targets, units);
        level := level + weight;
        SumOverStep(enemies, todo, EnemyThreat(units, playerSide), e);
        todo := todo - {e};
      }
      assert enemies - todo == enemies;
    }

    /** The candidate loop of `findBestBuildPosition` for one unit: its valid empty neighbours. */
    method AddFreeNeighbors(cell: Coord, valid: set<Coord>, units: map<Coord, Unit>, candidates0: set<Coord>)
      returns (candidates: set<Coord>)
      ensures candidates == candidates0 + Step(valid, units, {cell})
    {
      candidates := candidates0;
      var ns := Neighbors(cell);
      var j := 0;
      while j < 6
        invariant 0 <= j <= 6
        invariant candidates == candidates0 + FreeAmong(valid, units, ns[..j])
      {
        assert ns[..j + 1][..j] == ns[..j];
        if ns[j] in valid && ns[j] !in units {
          candidates := candidates + {ns[j]};
        }
        j := j + 1;
      }
      assert ns[..6] == ns;
      StepSingle(valid, units, cell);
    }

    /**
      `findBestBuildPosition`: nothing when no own living unit has a valid
      empty neighbour; otherwise such a neighbour of least threat for a house,
      or of least distance to the nearest enemy for any other kind.
    */
    method FindBestBuildPosition(kind: UnitKind, valid: set<Coord>, units: map<Coord, Unit>) returns (r: Option<Coord>)
      ensures r.None? <==> BuildCandidates(valid, units, playerSide) == {}
      ensures r.Some? ==> (r.value in BuildCandidates(valid, units, playerSide) &&
        forall c :: c in BuildCandidates(valid, units, playerSide) ==>
          BuildScore(kind, r.value, units, playerSide) <= BuildScore(kind, c, units, playerSide))
    {
      var candidates := CollectBuildCandidates(valid, units);
      if candidates == {} {
        return None;
      }
      var best := LeastBuildScore(kind, candidates, units);
      r := Some(best);
    }

    /** The `min`/`max` call of `findBestBuildPosition`: a candidate of least score. */
    method LeastBuildScore(kind: UnitKind, candidates: set<Coord>, units: map<Coord, Unit>) returns (best: Coord)
      requires candidates != {}
      ensures best in candidates
      ensures forall c :: c in candidates ==> BuildScore(kind, best, units, playerSide) <= BuildScore(kind, c, units, playerSide)
    {
      best :| best in candidates;
      var bestScore := ScoreBuild(kind, best, units);
      var rest := candidates - {best};
      while rest != {}
        invariant rest <= candidates && best in candidates && best !in rest
        invariant bestScore == BuildScore(kind, best, units, playerSide)
        invariant forall c :: c in candidates && c !in rest ==> bestScore <= BuildScore(kind, c, units, playerSide)
        decreases |rest|
      {
        var c :| c in rest;
        var score := ScoreBuild(kind, c, units);
        if score < bestScore {
          best, bestScore := c, score;
        }
        rest := rest - {c};
      }
    }

    /** The candidate loops of `findBestBuildPosition`: the valid empty neighbours of the own living units. */
    method CollectBuildCandidates(valid: set<Coord>, units: map<Coord, Unit>) returns (candidates: set<Coord>)
      ensures candidates == BuildCandidates(valid, units, playerSide)
    {
      var mine := LivingUnits(units, playerSide);
      candidates := {};
      var todo := mine;
      while todo != {}
        invariant todo <= mine
        invariant candidates == Step(valid, units, mine - todo)
        decreases |todo|
      {
        var p :| p in todo;
        candidates := AddFreeNeighbors(p, valid, units, candidates);
        StepUnion(valid, units, mine - todo, {p});
        assert (mine - todo) + {p} == mine - (todo - {p});
        todo := todo - {p};
      }
      assert mine - todo == mine;
    }

    /** The comparison key of `findBestBuildPosition`. */
    method ScoreBuild(kind: UnitKind, pos: Coord, units: map<Coord, Unit>) returns (score: int)
      ensures score == BuildScore(kind, pos, units, playerSide)
    {
      if kind == House {
        score := CalculatePositionThreat(pos, units);
      } else {
        score := DistanceToNearestEnemy(pos, units);
      }
    }

    /**
      `findBestDefensePosition`: nothing when no valid empty cell lies within
      distance 2 of an own living house; otherwise such a cell covering the
      most own buildings.
    */
    method FindBestDefensePosition(valid: set<Coord>, units: map<Coord, Unit>) returns (r: Option<Coord>)
      ensures var candidates := DefenseCandidates(valid, units, UnitsOfKind(units, House, playerSide));
        (r.None? <==> candidates == {}) &&
        (r.Some? ==> (r.value in candidates &&
           forall c :: c in candidates ==>
             CountProtectedBuildings(c, units, playerSide) <= CountProtectedBuildings(r.value, units, playerSide)))
    {
      var candidates := CollectDefenseCandidates(valid, units);
      if candidates == {} {
        return None;
      }
      var best :| best in candidates;
      var rest := candidates - {best};
      while rest != {}
        invariant rest <= candidates && best in candidates && best !in rest
        invariant forall c :: c in candidates && c !in rest ==>
          CountProtectedBuildings(c, units, playerSide) <= CountProtectedBuildings(best, units, playerSide)
        decreases |rest|
      {
        var c :| c in rest;
        if CountProtectedBuildings(best, units, playerSide) < CountProtectedBuildings(c, units, playerSide) {
          best := c;
        }
        rest := rest - {c};
      }
      r := Some(best);
    }

    /** The candidate loops of `findBestDefensePosition`: valid empty cells within distance 2 of an own house. */
    method CollectDefenseCandidates(valid: set<Coord>, units: map<Coord, Unit>) returns (candidates: set<Coord>)
      ensures candidates == DefenseCandidates(valid, units, UnitsOfKind(units, House, playerSide))
    {
      var houses := UnitsOfKind(units, House, playerSide);
      candidates := {};
      var todo := houses;
      while todo != {}
        invariant todo <= houses
        invariant candidates == DefenseCandidates(valid, units, houses - todo)
        decreases |todo|
      {
        var h :| h in todo;
        var ring := NeighborsWithin(h, 2);
        DefenseCandidatesAdd(valid, units, houses - todo, h, ring);
        candidates := candidates + (set c | c in ring && c in valid && c !in units);
        assert (houses - todo) + {h} == houses - (todo - {h});
        todo := todo - {h};
      }
      assert houses - todo == houses;
    }

    /**
      `findOptimalMove`: nothing when the unit has no move; otherwise one of
      its moves that brings it closest to the nearest living enemy.
    */
    method FindOptimalMove(u: Unit, at: Coord, valid: set<Coord>, units: map<Coord, Unit>) returns (r: Option<Coord>)
      requires CanMove(u) ==> u.stats.movementRange >= 1
      ensures r.None? <==> !CanMove(u) || Ball(valid, units, at, u.stats.movementRange) - {at} == {}
      ensures r.Some? ==> (CanMove(u) && r.value in Ball(valid, units, at, u.stats.movementRange) - {at} &&
        forall c :: c in Ball(valid, units, at, u.stats.movementRange) - {at} ==>
          NearestEnemyDistance(r.value, units, playerSide) <= NearestEnemyDistance(c, units, playerSide))
    {
      var moves := PossibleMoves(u, at, valid, units);
      if moves == {} {
        return None;
      }
      // Only a soldier can move, so the random pick the source makes for other kinds is unreachable.
      assert IsSoldier(u.kind);
      var best := NearestToEnemy(moves, units);
      r := Some(best);
    }

    /** The `min` of `findOptimalMove`: a cell of moves of least nearest-enemy distance. */
    method NearestToEnemy(moves: set<Coord>, units: map<Coord, Unit>) returns (best: Coord)
      requires moves != {}
      ensures best in moves
      ensures forall c :: c in moves ==> NearestEnemyDistance(best, units, playerSide) <= NearestEnemyDistance(c, units, playerSide)
    {
      best :| best in moves;
      var bestDistance := DistanceToNearestEnemy(best, units);
      var rest := moves - {best};
      while rest != {}
        invariant rest <= moves && best in moves && best !in rest
        invariant bestDistance == NearestEnemyDistance(best, units, playerSide)
        invariant forall c :: c in moves && c !in rest ==> bestDistance <= NearestEnemyDistance(c, units, playerSide)
        decreases |rest|
      {
        var c :| c in rest;
        var distance := DistanceToNearestEnemy(c, units);
        if distance < bestDistance {
          best, bestDistance := c, distance;
        }
        rest := rest - {c};
      }
    }

    // The phases.

    /**
      Priority 1 of `performBuildPhase`: with fewer than three houses and the
      gold for one, a house on the least threatened candidate cell. The result
      is the position tried, if any.
    */
    method TryHouse(b: GameMap, myGold: int) returns (houseAt: Option<Coord>)
      modifies b`units, b`player1Gold, b`player2Gold
      ensures houseAt.Some? <==>
        (CountUnits(old(b.units), House, playerSide) < 3 && myGold >= GetUnitCost(old(b.units), House, playerSide) &&
         BuildCandidates(b.validPositions, old(b.units), playerSide) != {})
      ensures houseAt.Some? ==> (houseAt.value in BuildCandidates(b.validPositions, old(b.units), playerSide) &&
        forall c :: c in BuildCandidates(b.validPositions, old(b.units), playerSide) ==>
          PositionThreat(houseAt.value, old(b.units), playerSide) <= PositionThreat(c, old(b.units), playerSide))
      ensures b.State() == TryBuild(old(b.State()), b.validPositions, House, houseAt, playerSide)
    {
      houseAt := None;
      if CountUnits(b.units, House, playerSide) < 3 && myGold >= GetUnitCost(b.units, House, playerSide) {
        var position := FindBestBuildPosition(House, b.validPositions, b.units);
        houseAt := position;
        if position.Some? {
          var _ := b.BuildUnit(House, position.value, playerSide);
        }
      }
    }

    /**
      Priority 2 of `performBuildPhase`: when the threat level exceeds 2 and
      the gold read at the start of the phase covers a watchtower, a
      watchtower on the candidate cell covering most buildings.
    */
    method TryTower(b: GameMap, myGold: int) returns (towerAt: Option<Coord>)
      requires AllSane(b.units)
      modifies b`units, b`player1Gold, b`player2Gold
      ensures towerAt.Some? <==>
        (ThreatLevel(old(b.units), playerSide) > 2 && myGold >= GetUnitCost(old(b.units), Watchtower, playerSide) &&
         DefenseCandidates(b.validPositions, old(b.units), UnitsOfKind(old(b.units), House, playerSide)) != {})
      ensures towerAt.Some? ==>
        (towerAt.value in DefenseCandidates(b.validPositions, old(b.units), UnitsOfKind(old(b.units), House, playerSide)) &&
         forall c :: c in DefenseCandidates(b.validPositions, old(b.units), UnitsOfKind(old(b.units), House, playerSide)) ==>
           CountProtectedBuildings(c, old(b.units), playerSide) <= CountProtectedBuildings(towerAt.value, old(b.units), playerSide))
      ensures b.State() == TryBuild(old(b.State()), b.validPositions, Watchtower, towerAt, playerSide)
    {
      towerAt := None;
      var threatLevel := AssessThreatLevel(b.units);
      if threatLevel > 2 && myGold >= GetUnitCost(b.units, Watchtower, playerSide) {
        var position := FindBestDefensePosition(b.validPositions, b.units);
        towerAt := position;
        if position.Some? {
          var _ := b.BuildUnit(Watchtower, position.value, playerSide);
        }
      }
    }

    /**
      Priority 3 of `performBuildPhase`: the soldier the current gold selects,
      if the gold read at the start of the phase pays for it, on the candidate
      cell nearest to an enemy.
    */
    method TryMilitary(b: GameMap, myGold: int) returns (kind: UnitKind, militaryAt: Option<Coord>)
      modifies b`units, b`player1Gold, b`player2Gold
      ensures kind == ChooseOptimalMilitaryUnit(old(b.GoldOf(playerSide)))
      ensures militaryAt.Some? <==>
        (myGold >= GetUnitCost(old(b.units), kind, playerSide) && BuildCandidates(b.validPositions, old(b.units), playerSide) != {})
      ensures militaryAt.Some? ==> (militaryAt.value in BuildCandidates(b.validPositions, old(b.units), playerSide) &&
        forall c :: c in BuildCandidates(b.validPositions, old(b.units), playerSide) ==>
          NearestEnemyDistance(militaryAt.value, old(b.units), playerSide) <= NearestEnemyDistance(c, old(b.units), playerSide))
      ensures b.State() == TryBuild(old(b.State()), b.validPositions, kind, militaryAt, playerSide)
    {
      militaryAt := None;
      var unitToBuild := ChooseOptimalMilitaryUnit(b.GoldOf(playerSide));
      kind := unitToBuild;
      if myGold >= GetUnitCost(b.units, unitToBuild, playerSide) {
        var position := FindBestBuildPosition(unitToBuild, b.validPositions, b.units);
        militaryAt := position;
        if position.Some? {
          var _ := b.BuildUnit(unitToBuild, position.value, playerSide);
        }
      }
    }

    /**
      `performBuildPhase`: a house attempt, then a watchtower attempt judged
      on the gold read before the house was paid for, then, only when neither
      attempt found a position, a soldier; then the next phase. A watchtower
      attempt that cannot be paid for still rules out the soldier.
    */
    method PerformBuildPhase(b: GameMap)
      returns (ghost before: GameState, ghost houseAt: Option<Coord>, ghost towerAt: Option<Coord>,
               ghost militaryAt: Option<Coord>, ghost kind: UnitKind)
      requires AllSane(b.units)
      modifies b
      ensures AllSane(b.units) && b.UiCleared()
      ensures b.State() == NextPhaseState(before)
      ensures before.currentPlayer == old(b.currentPlayer) && before.turnPhase == old(b.turnPhase) &&
        before.turnNumber == old(b.turnNumber)
      ensures var afterHouse := TryBuild(old(b.State()), b.validPositions, House, houseAt, playerSide);
        var afterTower := TryBuild(afterHouse, b.validPositions, Watchtower, towerAt, playerSide);
        before == TryBuild(afterTower, b.validPositions, kind, militaryAt, playerSide) &&
        (houseAt.Some? <==>
           (CountUnits(old(b.units), House, playerSide) < 3 &&
            old(b.GoldOf(playerSide)) >= GetUnitCost(old(b.units), House, playerSide) &&
            BuildCandidates(b.validPositions, old(b.units), playerSide) != {})) &&
        (towerAt.Some? <==>
           (ThreatLevel(afterHouse.units, playerSide) > 2 &&
            old(b.GoldOf(playerSide)) >= GetUnitCost(afterHouse.units, Watchtower, playerSide) &&
            DefenseCandidates(b.validPositions, afterHouse.units, UnitsOfKind(afterHouse.units, House, playerSide)) != {})) &&
        (towerAt.Some? ==>
           towerAt.value in DefenseCandidates(b.validPositions, afterHouse.units, UnitsOfKind(afterHouse.units, House, playerSide)) &&
           forall c :: c in DefenseCandidates(b.validPositions, afterHouse.units, UnitsOfKind(afterHouse.units, House, playerSide)) ==>
             CountProtectedBuildings(c, afterHouse.units, playerSide) <= CountProtectedBuildings(towerAt.value, afterHouse.units, playerSide)) &&
        (militaryAt.Some? ==> houseAt.None? && towerAt.None?) &&
        (houseAt.None? && towerAt.None? ==>
           afterTower == old(b.State()) && kind == ChooseOptimalMilitaryUnit(old(b.GoldOf(playerSide))) &&
           (militaryAt.Some? <==>
              (old(b.GoldOf(playerSide)) >= GetUnitCost(old(b.units), kind, playerSide) &&
               BuildCandidates(b.validPositions, old(b.units), playerSide) != {})))
      ensures houseAt.Some? ==> (houseAt.value in BuildCandidates(b.validPositions, old(b.units), playerSide) &&
        forall c :: c in BuildCandidates(b.validPositions, old(b.units), playerSide) ==>
          PositionThreat(houseAt.value, old(b.units), playerSide) <= PositionThreat(c, old(b.units), playerSide))
      ensures militaryAt.Some? ==> (militaryAt.value in BuildCandidates(b.validPositions, old(b.units), playerSide) &&
        forall c :: c in BuildCandidates(b.validPositions, old(b.units), playerSide) ==>
          NearestEnemyDistance(militaryAt.value, old(b.units), playerSide) <= NearestEnemyDistance(c, old(b.units), playerSide))
    {
      ghost var start := b.State();
      var myGold := b.GoldOf(playerSide);
      var builtSomething := false;
      var house := TryHouse(b, myGold);
      houseAt := house;
      TryBuildOutcome(start, b.validPositions, House, houseAt, playerSide);
      ghost var afterHouse := b.State();
      builtSomething := house.Some?;
      var tower := TryTower(b, myGold);
      towerAt := tower;
      TryBuildOutcome(afterHouse, b.validPositions, Watchtower, towerAt, playerSide);
      ghost var afterTower := b.State();
      if tower.Some? {
        builtSomething := true;
      }
      militaryAt := None;
      kind := ChooseOptimalMilitaryUnit(b.GoldOf(playerSide));
      if !builtSomething {
        var unitToBuild, military := TryMilitary(b, myGold);
        kind, militaryAt := unitToBuild, military;
      }
      TryBuildOutcome(afterTower, b.validPositions, kind, militaryAt, playerSide);
      before := b.State();
      NextPhaseKeepsSane(before);
      b.NextPhase();
    }

    /** One move of `performMovePhase`: the unit at `at` goes to its optimal move, if it has one. */
    method MoveOne(b: GameMap, at: Coord)
      requires AllSane(b.units) && at in b.units
      modifies b`units
      ensures AllSane(b.units)
      ensures |b.units| == |old(b.units)|
      ensures |LivingUnits(b.units, Player1)| == |LivingUnits(old(b.units), Player1)|
      ensures |LivingUnits(b.units, Player2)| == |LivingUnits(old(b.units), Player2)|
      ensures b.units == old(b.units) || (exists to :: to !in old(b.units) && b.units == AfterMove(old(b.units), at, to))
      ensures MoveStep(b.validPositions, old(b.units), at, b.currentPlayer, playerSide, b.units)
    {
      var unit := b.units[at];
      var optimalMove := FindOptimalMove(unit, at, b.validPositions, b.units);
      if optimalMove.Some? {
        var to := optimalMove.value;
        PossibleMovesBounded(b.validPositions, b.units, at, unit.stats.movementRange, to);
        var ok := b.MoveUnit(at, to);
        if ok {
          MoveKeepsCounts(old(b.units), at, to);
        }
      }
    }

    /**
      `performMovePhase`: each own unit that could move when the phase began,
      in an unspecified order, moves to its optimal move; then the next
      phase. Moves never change the number of units or of either side's
      living units, and never touch an enemy unit.
    */
    method PerformMovePhase(b: GameMap)
      returns (ghost before: GameState, ghost order: seq<Coord>, ghost trace: seq<map<Coord, Unit>>)
      requires AllSane(b.units)
      modifies b
      ensures AllSane(b.units) && b.UiCleared()
      ensures b.State() == NextPhaseState(before)
      ensures before == old(b.State()).(units := before.units)
      ensures forall p :: p in order <==> p in old(b.units) && old(b.units)[p].owner == playerSide && CanMove(old(b.units)[p])
      ensures forall i, j :: 0 <= i < j < |order| ==> order[i] != order[j]
      ensures MoveTrace(b.validPositions, trace, order, old(b.currentPlayer), playerSide)
      ensures trace[0] == old(b.units) && trace[|order|] == before.units
      ensures |before.units| == |old(b.units)|
      ensures |LivingUnits(before.units, Player1)| == |LivingUnits(old(b.units), Player1)|
      ensures |LivingUnits(before.units, Player2)| == |LivingUnits(old(b.units), Player2)|
      ensures forall p :: p in old(b.units) && old(b.units)[p].owner != playerSide ==>
        p in before.units && before.units[p] == old(b.units)[p]
    {
      var myUnits := set p | p in b.units && b.units[p].owner == playerSide && CanMove(b.units[p]);
      order, trace := MoveEach(b, myUnits);
      before := b.State();
      NextPhaseKeepsSane(before);
      b.NextPhase();
    }

    /** MoveOne, with its step appended to a trace of moves. */
    method RecordMove(b: GameMap, at: Coord, ghost order: seq<Coord>, ghost trace: seq<map<Coord, Unit>>)
      returns (ghost order': seq<Coord>, ghost trace': seq<map<Coord, Unit>>)
      requires AllSane(b.units) && at in b.units
      requires MoveTrace(b.validPositions, trace, order, b.currentPlayer, playerSide) && trace[|order|] == b.units
      modifies b`units
      ensures MoveTrace(b.validPositions, trace', order', b.currentPlayer, playerSide)
      ensures order' == order + [at] && trace' == trace + [b.units]
      ensures AllSane(b.units)
      ensures |b.units| == |old(b.units)|
      ensures |LivingUnits(b.units, Player1)| == |LivingUnits(old(b.units), Player1)|
      ensures |LivingUnits(b.units, Player2)| == |LivingUnits(old(b.units), Player2)|
      ensures forall p :: p in old(b.units) && p != at ==> p in b.units && b.units[p] == old(b.units)[p]
    {
      MoveOne(b, at);
      MoveTraceExtend(b.validPositions, trace, order, b.currentPlayer, playerSide, at, b.units);
      order', trace' := order + [at], trace + [b.units];
    }

    /** The loop of `performMovePhase`: each unit of myUnits, in an unspecified order, takes its turn. */
    method MoveEach(b: GameMap, myUnits: set<Coord>) returns (ghost order: seq<Coord>, ghost trace: seq<map<Coord, Unit>>)
      requires AllSane(b.units)
      requires forall p :: p in myUnits ==> p in b.units && b.units[p].owner == playerSide
      modifies b`units
      ensures AllSane(b.units)
      ensures forall p :: p in order <==> p in myUnits
      ensures forall i, j :: 0 <= i < j < |order| ==> order[i] != order[j]
      ensures MoveTrace(b.validPositions, trace, order, b.currentPlayer, playerSide)
      ensures trace[0] == old(b.units) && trace[|order|] == b.units
      ensures |b.units| == |old(b.units)|
      ensures |LivingUnits(b.units, Player1)| == |LivingUnits(old(b.units), Player1)|
      ensures |LivingUnits(b.units, Player2)| == |LivingUnits(old(b.units), Player2)|
      ensures forall p :: p in old(b.units) && old(b.units)[p].owner != playerSide ==>
        p in b.units && b.units[p] == old(b.units)[p]
    {
      ghost var snapshot := b.units;
      var todo := myUnits;
      order, trace := [], [b.units];
      while todo != {}
        invariant todo <= myUnits
        invariant forall p :: p in order <==> p in myUnits && p !in todo
        invariant forall i, j :: 0 <= i < j < |order| ==> order[i] != order[j]
        invariant MoveTrace(b.validPositions, trace, order, b.currentPlayer, playerSide)
        invariant trace[0] == snapshot && trace[|order|] == b.units
        invariant forall p :: p in todo ==> p in b.units && b.units[p] == snapshot[p]
        invariant AllSane(b.units)
        invariant |b.units| == |snapshot|
        invariant |LivingUnits(b.units, Player1)| == |LivingUnits(snapshot, Player1)|
        invariant |LivingUnits(b.units, Player2)| == |LivingUnits(snapshot, Player2)|
        invariant forall p :: p in snapshot && snapshot[p].owner != playerSide ==> p in b.units && b.units[p] == snapshot[p]
        decreases |todo|
      {
        var at :| at in todo;
        order, trace := RecordMove(b, at, order, trace);
        todo := todo - {at};
      }
    }

    /**
      One attack of `performCombatPhase`: the unit at `at` attacks the best of
      its targets, listed in an unspecified order, if it has any.
    */
    method AttackOne(b: GameMap, at: Coord)
      requires AllSane(b.units) && at in b.units && b.units[at].owner == playerSide
      modifies b`units
      ensures AllSane(b.units)
      ensures LivingUnits(b.units, playerSide) == LivingUnits(old(b.units), playerSide)
      ensures LivingUnits(b.units, Opponent(playerSide)) <= LivingUnits(old(b.units), Opponent(playerSide))
      ensures b.units.Keys <= old(b.units).Keys
      ensures forall p :: p in old(b.units) && old(b.units)[p].owner == playerSide ==>
        p in b.units && b.units[p].owner == playerSide && (p != at ==> b.units[p] == old(b.units)[p])
      ensures AttackStep(old(b.units), at, b.currentPlayer, b.units)
    {
      var unit := b.units[at];
      var targets := PossibleTargets(unit, at, b.units);
      var listed := Enumerate(targets);
      BestTargetIsPreferred(listed, targets, b.units);
      var bestTarget := ChooseBestTarget(listed, b.units);
      if bestTarget.Some? {
        var t := bestTarget.value;
        var ok := b.AttackUnit(at, t);
        if ok {
          AttackSpares(old(b.units), at, t);
          AttackOutcome(old(b.units), at, t);
          OpponentInvolution(playerSide);
        }
      }
    }

    /**
      `performCombatPhase`: the own units that could attack when the phase
      began, highest attack first, each attack the best of their targets;
      then the next phase. The own side keeps exactly its living units and
      the enemy side loses some.
    */
    method PerformCombatPhase(b: GameMap)
      returns (ghost before: GameState, ghost order: seq<Coord>, ghost trace: seq<map<Coord, Unit>>)
      requires AllSane(b.units)
      modifies b
      ensures AllSane(b.units) && b.UiCleared()
      ensures b.State() == NextPhaseState(before)
      ensures before == old(b.State()).(units := before.units)
      ensures multiset(order) == multiset(set p | p in old(b.units) && old(b.units)[p].owner == playerSide && CanAttack(old(b.units)[p]))
      ensures ByAttackDescending(order, old(b.units))
      ensures LivingUnits(before.units, playerSide) == LivingUnits(old(b.units), playerSide)
      ensures LivingUnits(before.units, Opponent(playerSide)) <= LivingUnits(old(b.units), Opponent(playerSide))
      ensures before.units.Keys <= old(b.units).Keys
      ensures AttackTrace(trace, order, old(b.currentPlayer))
      ensures trace[0] == old(b.units) && trace[|order|] == before.units
    {
      var myUnits := set p | p in b.units && b.units[p].owner == playerSide && CanAttack(b.units[p]);
      var listed := Enumerate(myUnits);
      var sortedUnits := SortByAttack(listed, b.units);
      order := sortedUnits;
      forall k | 0 <= k < |sortedUnits|
        ensures sortedUnits[k] in myUnits
      {
        assert sortedUnits[k] in multiset(sortedUnits) && sortedUnits[k] in multiset(listed) && sortedUnits[k] in listed;
      }
      trace := AttackEach(b, sortedUnits);
      before := b.State();
      NextPhaseKeepsSane(before);
      b.NextPhase();
    }

    /** AttackOne, with its turn appended to a trace of attacks. */
    method RecordAttack(b: GameMap, at: Coord, ghost order: seq<Coord>, ghost trace: seq<map<Coord, Unit>>)
      returns (ghost trace': seq<map<Coord, Unit>>)
      requires AllSane(b.units) && at in b.units && b.units[at].owner == playerSide
      requires AttackTrace(trace, order, b.currentPlayer) && trace[|order|] == b.units
      modifies b`units
      ensures AttackTrace(trace', order + [at], b.currentPlayer) && trace' == trace + [b.units]
      ensures AllSane(b.units)
      ensures LivingUnits(b.units, playerSide) == LivingUnits(old(b.units), playerSide)
      ensures LivingUnits(b.units, Opponent(playerSide)) <= LivingUnits(old(b.units), Opponent(playerSide))
      ensures b.units.Keys <= old(b.units).Keys
      ensures forall p :: p in old(b.units) && old(b.units)[p].owner == playerSide ==>
        p in b.units && b.units[p].owner == playerSide
    {
      AttackOne(b, at);
      AttackTraceExtend(trace, order, b.currentPlayer, at, b.units);
      trace' := trace + [b.units];
    }

    /** The loop of `performCombatPhase`: each unit of xs attacks in turn. */
    method AttackEach(b: GameMap, xs: seq<Coord>) returns (ghost trace: seq<map<Coord, Unit>>)
      requires AllSane(b.units)
      requires forall k :: 0 <= k < |xs| ==> xs[k] in b.units && b.units[xs[k]].owner == playerSide
      modifies b`units
      ensures AllSane(b.units)
      ensures AttackTrace(trace, xs, b.currentPlayer)
      ensures trace[0] == old(b.units) && trace[|xs|] == b.units
      ensures LivingUnits(b.units, playerSide) == LivingUnits(old(b.units), playerSide)
      ensures LivingUnits(b.units, Opponent(playerSide)) <= LivingUnits(old(b.units), Opponent(playerSide))
      ensures b.units.Keys <= old(b.units).Keys
    {
      ghost var snapshot := b.units;
      var i := 0;
      trace := [b.units];
      while i < |xs|
        invariant 0 <= i <= |xs|
        invariant AttackTrace(trace, xs[..i], b.currentPlayer)
        invariant trace[0] == snapshot && trace[i] == b.units
        invariant AllSane(b.units)
        invariant LivingUnits(b.units, playerSide) == LivingUnits(snapshot, playerSide)
        invariant LivingUnits(b.units, Opponent(playerSide)) <= LivingUnits(snapshot, Opponent(playerSide))
        invariant b.units.Keys <= snapshot.Keys
        invariant forall p :: p in snapshot && snapshot[p].owner == playerSide ==> p in b.units && b.units[p].owner == playerSide
      {
        trace := RecordAttack(b, xs[i], xs[..i], trace);
        assert xs[..i] + [xs[i]] == xs[..i + 1];
        i := i + 1;
      }
      assert xs[..i] == xs;
    }

    /**
      `makeMove`: nothing on the other side's turn; otherwise the phase's
      action followed by one step along the phase cycle (Income and End Turn
      only take that step).
    */
    method MakeMove(b: GameMap) returns (ghost before: GameState)
      requires AllSane(b.units)
      modifies b
      ensures AllSane(b.units)
      ensures old(b.currentPlayer) != playerSide ==> unchanged(b)
      ensures old(b.currentPlayer) == playerSide ==>
        b.State() == NextPhaseState(before) && b.UiCleared() &&
        before.currentPlayer == old(b.currentPlayer) && before.turnPhase == old(b.turnPhase) &&
        before.turnNumber == old(b.turnNumber)
      ensures old(b.currentPlayer) == playerSide && old(b.turnPhase) in {Income, EndTurn} ==>
        before == old(b.State())
    {
      before := b.State();
      if b.currentPlayer != playerSide {
        return;
      }
      match b.turnPhase {
        case Income =>
          NextPhaseKeepsSane(before);
          b.NextPhase();
        case Build =>
          ghost var houseAt, towerAt, militaryAt, kind;
          before, houseAt, towerAt, militaryAt, kind := PerformBuildPhase(b);
        case Move =>
          ghost var order, trace;
          before, order, trace := PerformMovePhase(b);
        case Combat =>
          ghost var order, trace;
          before, order, trace := PerformCombatPhase(b);
        case EndTurn =>
          NextPhaseKeepsSane(before);
          b.NextPhase();
      }
    }
  }
}
