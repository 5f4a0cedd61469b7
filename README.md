# Hexagon strategy engine — a verified model

This project models the rules engine of a two-player, turn-based strategy
game played on a hexagonal grid, and proves properties of that model.

The model covers five parts of the engine:

- **Hex geometry** (`hex.dfy`, module `Hex`). Axial coordinates, cube
  distance, the six neighbours, range sets and hexagon and rectangle map
  generation.
- **Units** (`units.dfy`, module `Units`).
  - The seven unit kinds and the factory stat table.
  - The move and attack predicates, and clamped damage and healing.
  - The progressive house price.
  - The breadth-first movement flood fill and range-based targeting.
- **The board** (`board.dfy`, module `Board`). The `GameMap` class holds the
  unit dictionary, gold, the current side, phase and turn, and the UI
  selection.
  - Its methods place, move, attack with and build units, collect income,
    end the turn and advance the five-phase cycle.
  - Pure functions state each method's result.
- **The planner** (`planner.dfy`, module `Planner`). The `GameAI` class
  decides each phase.
  - Build: a house, then a watchtower under threat, then the strongest
    affordable soldier.
  - Move: each soldier steps towards the nearest enemy.
  - Combat: attackers act by falling attack, each picking a house, then a
    weak unit, then the costliest unit.
- **Levels** (`levels.dfy`, module `Levels`).
  - The five catalogue levels and the generator for balanced, economic,
    military and defensive levels.
  - The suggested stat table and the integer part of the balance report.
  - `applyLevel`, which resets a board to a level.

Two helper modules support the rest. `Options` holds the optional value.
`Folds` holds sums and minima over finite sets, independent of any
enumeration order.

## How the model is built

- Units are values in a position-keyed map; the position is the key.
  - Swift's `GameUnit` is a class whose health and flags change in place.
  - Within one phase a unit is only reached through the board's dictionary,
    so updating the map entry has the same effect.
- Loops that build sets or walk dictionaries are Dafny methods with loop
  invariants. Each is proved against an order-free reference function.
  - Swift's `Set` and `Dictionary` iteration order is unspecified.
  - So arg-min and arg-max results are stated as "some optimal element".
- Ranges that trap in Swift become preconditions:
  - `1...movementRange` below 1;
  - `-range...range` below 0;
  - `0..<n` below 0.
- Level generation is modelled twice:
  - the append loops of the source, as methods;
  - the lists those loops build, as functions.
  Each method's postcondition ties the two together.

Two hazards in the level data are proved as lemmas:

- **Large Battle has off-map units.** Player 1's scout at (2, 5) and
  player 2's scout at (-2, -5) lie at distance 7 on a map of radius 6.
  - `applyLevel` places them without checking the map.
  - See `LargeBattleOffMap` and `LargeBattleStartsOffMap`.
- **The small military level collides.** Its odd soldiers land on row 0 for
  both sides, at (-1, 0) and, with four units, (1, 0).
  - Player 2's units overwrite player 1's, so player 1 starts without its
    knight.
  - See `RandomLevelCollisions`, `SmallMilitaryCollision` and
    `SmallMilitaryLosesKnight`.
  - Every other generated level keeps each side's units on the map and on
    distinct cells.

Axial mirroring (q, r) → (q, −r), which the generator uses for player 2, is
not a symmetry of the hex distance. For example, (2, 1) is at distance 3 from
the centre but (2, −1) is at distance 2. The on-map proofs therefore check
both sides.

## Model

| member | source | states |
|---|---|---|
| Hex.CubeOnPlane | TurnBasedGameSample/Models/HexCoordinate.swift:22-31 | the three cube coordinates sum to zero, and the middle one is the derived `s` |
| Hex.CubeDeltaEven | TurnBasedGameSample/Models/HexCoordinate.swift:39-44 | the sum of cube differences is always even, so halving it is exact |
| Hex.Distance | TurnBasedGameSample/Models/HexCoordinate.swift:39-44 | distance is non-negative and is half the sum of the cube coordinate differences |
| Hex.DistanceSymmetric | TurnBasedGameSample/Models/HexCoordinate.swift:39-44 | distance is symmetric |
| Hex.DistanceZeroIffEqual | TurnBasedGameSample/Models/HexCoordinate.swift:39-44 | distance is zero exactly when the cells are equal |
| Hex.DistanceTriangle | TurnBasedGameSample/Models/HexCoordinate.swift:39-44 | distance satisfies the triangle inequality |
| Hex.DistanceTranslate | TurnBasedGameSample/Models/HexCoordinate.swift:92-94 | distance between two cells is the distance of their difference from the origin |
| Hex.AddSubInverse | TurnBasedGameSample/Models/HexCoordinate.swift:88-94 | `(a + b) - b == a` and `(a - b) + b == a` |
| Hex.ScaleDistance | TurnBasedGameSample/Models/HexCoordinate.swift:96-98 | scaling a cell by k multiplies its distance from the origin by \|k\| |
| Hex.NeighborsFollowDirections | TurnBasedGameSample/Models/HexCoordinate.swift:47-58 | the i-th neighbour is the cell plus the i-th direction, in the order E, NE, NW, W, SW, SE |
| Hex.NeighborsAreTheUnitRing | TurnBasedGameSample/Models/HexCoordinate.swift:47-58 | the six neighbours are pairwise distinct, and a cell is a neighbour exactly when it is at distance 1 |
| Hex.NeighborsAreWithinRangeOne | TurnBasedGameSample/Models/HexCoordinate.swift:80-82 | n is a neighbour of c iff n differs from c and is within range 1 of it |
| Hex.BandIsDisk | TurnBasedGameSample/Models/HexCoordinate.swift:61-77 | the loop bounds over (q, r) describe exactly the disk of that range |
| Hex.NeighborsWithin | TurnBasedGameSample/Models/HexCoordinate.swift:61-77 | the result is exactly the cells at distance 1 to range (empty for range 0) |
| Hex.HexCellCount | TurnBasedGameSample/Models/HexCoordinate.swift:149-162 | the loop visits 3r²+3r+1 cells |
| Hex.GenerateHexMap | TurnBasedGameSample/Models/HexCoordinate.swift:149-162 | the map is exactly the cells within the radius, and it has 3r²+3r+1 cells |
| Hex.GenerateRectangleMap | TurnBasedGameSample/Models/HexCoordinate.swift:165-176 | row r holds q in [-⌊r/2⌋, width-⌊r/2⌋), and the map has width×height cells |
| Units.KindClassification | TurnBasedGameSample/Models/GameUnit.swift:24-49 | every kind is either a building or a soldier, never both; towers are buildings |
| Units.Opponent | TurnBasedGameSample/Models/GameUnit.swift:57-62 | a side's opponent is the other side |
| Units.OpponentInvolution | TurnBasedGameSample/Models/GameUnit.swift:57-62 | the opponent of the opponent is the side itself |
| Units.BaseStats | TurnBasedGameSample/Models/GameUnit.swift:263-287 | health and cost are positive; buildings, and only buildings, have movement 0; soldiers move at least 2 and reach 1 |
| Units.SoldierLadder | TurnBasedGameSample/Models/GameUnit.swift:263-287 | cost and attack rise from scout to warrior, knight and champion; the fortress reaches further than the watchtower, which reaches further than the house |
| Units.Create | TurnBasedGameSample/Models/GameUnit.swift:263-287 | a created unit has its kind's stats, full health and clear flags; it can attack, and it can move iff it is a soldier |
| Units.TakeDamage | TurnBasedGameSample/Models/GameUnit.swift:193-195 | health becomes max(0, h - d) and nothing else changes; the unit survives iff d < h |
| Units.DamageAccumulates | TurnBasedGameSample/Models/GameUnit.swift:193-195 | two hits of non-negative damage equal one hit of their sum |
| Units.Heal | TurnBasedGameSample/Models/GameUnit.swift:197-199 | health becomes min(maxHealth, h + a) and nothing else changes; the unit is at full health iff h + a reaches the maximum |
| Units.HealAccumulates | TurnBasedGameSample/Models/GameUnit.swift:197-199 | two non-negative heals equal one heal of their sum |
| Units.ResetTurnFlags | TurnBasedGameSample/Models/GameUnit.swift:201-204 | both flags are cleared and nothing else changes; afterwards a living unit can attack, and can move iff it is not a building |
| Units.HouseCost | TurnBasedGameSample/Models/GameUnit.swift:290-292 | a house costs the base house cost plus 20 per existing house |
| Units.HouseCostProgression | TurnBasedGameSample/Models/GameUnit.swift:290-292 | the first house costs what the factory charges, and each further house costs 20 more |
| Units.StepSingle | TurnBasedGameSample/Models/GameUnit.swift:164-170 | one cell's expansion is its valid, empty neighbours |
| Units.VisitNeighbors | TurnBasedGameSample/Models/GameUnit.swift:164-170 | the inner loop adds exactly the unvisited valid, empty neighbours to visited, the next frontier and reachable |
| Units.ExpandFrontier | TurnBasedGameSample/Models/GameUnit.swift:163-171 | one layer adds exactly the free cells next to the frontier |
| Units.StopEarly | TurnBasedGameSample/Models/GameUnit.swift:173-174 | once a layer is empty, more layers add nothing, so the early break is sound |
| Units.PossibleMoves | TurnBasedGameSample/Models/GameUnit.swift:153-178 | empty when the unit cannot move; otherwise the cells reached within movementRange layers, minus the start |
| Units.PossibleMovesBounded | TurnBasedGameSample/Models/GameUnit.swift:153-178 | every reachable cell is valid, empty and at distance 1 to movementRange |
| Units.BallIsWalkReach | TurnBasedGameSample/Models/GameUnit.swift:153-178 | a cell is within k layers iff a walk of at most k steps through valid, empty cells reaches it |
| Units.PossibleTargets | TurnBasedGameSample/Models/GameUnit.swift:181-189 | the targets are the living enemy units within attack range, other than the attacker's own cell (none when it cannot attack) |
| Board.Next | TurnBasedGameSample/Models/GameMap.swift:29-37 | the next phase differs from the current one |
| Board.NextCycles | TurnBasedGameSample/Models/GameMap.swift:29-37 | five steps return to the starting phase, and no fewer do |
| Board.LivingUnits | TurnBasedGameSample/Models/GameMap.swift:264-266 | a cell is listed iff it holds a living unit of the side |
| Board.UnitsOfKind | TurnBasedGameSample/Models/GameMap.swift:260-262 | the cells counted for a kind are among the side's living units |
| Board.IncomeOf | TurnBasedGameSample/Models/GameMap.swift:250-256 | income is a non-negative multiple of 10 (10 per living house) |
| Board.GetUnitCost | TurnBasedGameSample/Models/GameMap.swift:197-203 | a non-house costs its factory cost; a house costs the progressive house price for the side's living houses, at least the base house cost; every cost is positive |
| Board.HouseCostRises | TurnBasedGameSample/Models/GameMap.swift:197-203 | building a house raises the next house's price by 20 |
| Board.CheckWinCondition | TurnBasedGameSample/Models/GameMap.swift:303-324 | all three outcomes as iffs: elimination of player 1, then of player 2, then 5 houses for player 1, then 5 houses for player 2, else none |
| Board.EliminationDecides | TurnBasedGameSample/Models/GameMap.swift:303-313 | a side with living units whose opponent has none wins |
| Board.Relocated | TurnBasedGameSample/Models/GameMap.swift:125-129 | the moved unit keeps kind, owner, health and attack flag, is marked as moved and gets its kind's base stats |
| Board.MoveOutcome | TurnBasedGameSample/Models/GameMap.swift:122-133 | the source cell empties, the target holds a unit that cannot move again, every other cell is unchanged and the unit count is kept |
| Board.MoveKeepsArmy | TurnBasedGameSample/Models/GameMap.swift:107-135 | the mover's living cells lose the source and gain the target; the opponent's are unchanged |
| Board.MoveKeepsCounts | TurnBasedGameSample/Models/GameMap.swift:107-135 | a move keeps the number of units and each side's living count, and keeps the stats sane |
| Board.AttackOutcome | TurnBasedGameSample/Models/GameMap.swift:152-159 | the target survives iff attack < health, with health reduced by the attack; the attacker is marked; every other cell is unchanged |
| Board.AttackShrinksArmies | TurnBasedGameSample/Models/GameMap.swift:137-162 | an attack never adds a living unit or a cell |
| Board.AttackSpares | TurnBasedGameSample/Models/GameMap.swift:137-162 | the attacker's side keeps every living unit, and the target's side can only lose units |
| Board.ResetKeepsCounts | TurnBasedGameSample/Models/GameMap.swift:230-233 | resetting flags keeps the cells and every side's living and per-kind sets |
| Board.EndTurnOutcome | TurnBasedGameSample/Models/GameMap.swift:229-256 | the side flips, the phase is Build, both sides collect their income, and only the ending side's flags are reset |
| Board.FullRound | TurnBasedGameSample/Models/GameMap.swift:229-248 | two turn ends give the move back to the same side, one turn number later |
| Board.PhaseProgress | TurnBasedGameSample/Models/GameMap.swift:207-227 | the next phase is never Income, and four steps from Build reach the opponent's Build phase |
| Board.UnitsFrom | TurnBasedGameSample/Models/GameMap.swift:342-343 | the rebuilt dictionary's keys are exactly the saved positions |
| Board.UnitsFromKeepsEach | TurnBasedGameSample/Models/GameMap.swift:342-343 | with distinct positions, each saved unit is found under its position |
| Board.SaveLoadRoundTrip | TurnBasedGameSample/Models/GameMap.swift:342-361 | saving a dictionary's units and rebuilding gives back the same dictionary |
| Board.StartCellDistances | TurnBasedGameSample/Models/GameMap.swift:268-299 | the fixed starting cells lie at distance 3 or 4 from the centre |
| Board.PlaceIfFreeAt | TurnBasedGameSample/Models/GameMap.swift:94-100 | a placement writes the unit only on a valid, empty cell and changes nothing else |
| Board.InitialLayoutCells | TurnBasedGameSample/Models/GameMap.swift:268-299 | after setup a cell holds what it held before, or its starting unit when that cell is valid and was empty |
| Board.TinyMapIsLost | TurnBasedGameSample/Models/GameMap.swift:268-299 | on any set of cells within radius 2 or less, the initial placement leaves the board empty and player 2 is declared the winner |
| Board.GameMap.constructor | TurnBasedGameSample/Models/GameMap.swift:73-77 | the map is the hexagon of the radius (4 by default) with the starting units, 100 gold each, and player 1 in Build on turn 1 |
| Board.GameMap.FromSaved | TurnBasedGameSample/Models/GameMap.swift:334-354 | decoding restores the saved units, side, phase, turn and gold, and clears the UI state |
| Board.GameMap.UnitAt | TurnBasedGameSample/Models/GameMap.swift:81-83 | a unit is returned iff the cell is occupied |
| Board.GameMap.PlaceUnit | TurnBasedGameSample/Models/GameMap.swift:93-100 | succeeds iff the cell is valid and empty; then the cell holds the unit, otherwise nothing changes |
| Board.GameMap.RemoveUnit | TurnBasedGameSample/Models/GameMap.swift:102-105 | returns the removed unit if there was one, and the cell is empty afterwards |
| Board.GameMap.MoveUnit | TurnBasedGameSample/Models/GameMap.swift:107-135 | succeeds iff the guards hold and the target is within the flood fill; on success the board is the moved board, otherwise it is unchanged |
| Board.GameMap.AttackUnit | TurnBasedGameSample/Models/GameMap.swift:137-162 | succeeds iff the guards hold and the target is in range; on success the board is the attacked board, otherwise it is unchanged |
| Board.GameMap.BuildUnit | TurnBasedGameSample/Models/GameMap.swift:166-195 | succeeds iff the cell is valid and empty and the side can pay; on success it places a fresh unit and debits exactly the cost, leaving gold non-negative; on failure nothing changes |
| Board.GameMap.CollectIncome | TurnBasedGameSample/Models/GameMap.swift:250-256 | each side gains 10 gold per living house |
| Board.GameMap.ResetFlagsOf | TurnBasedGameSample/Models/GameMap.swift:230-233 | the flags of the side's units are cleared and every other unit is unchanged |
| Board.GameMap.EndTurn | TurnBasedGameSample/Models/GameMap.swift:229-248 | the new state is the turn-end state (see Board.EndTurnOutcome) |
| Board.GameMap.NextPhase | TurnBasedGameSample/Models/GameMap.swift:207-227 | the new state is the next-phase state, and the UI selection is cleared |
| Board.GameMap.SetupInitialUnits | TurnBasedGameSample/Models/GameMap.swift:268-299 | the six starting units are placed where their cells are valid and empty |
| Planner.GameAI.constructor | TurnBasedGameSample/AI/GameAI.swift:27-30 | the AI keeps its difficulty and side (Ultra and player 2 by default) |
| Planner.NearestEnemyIsNearest | TurnBasedGameSample/AI/GameAI.swift:280-285 | Int.max with no enemy left; otherwise the distance to some living enemy, and no living enemy is closer |
| Planner.GameAI.DistanceToNearestEnemy | TurnBasedGameSample/AI/GameAI.swift:280-285 | the loop returns the nearest-enemy distance |
| Planner.PositionThreatBounds | TurnBasedGameSample/AI/GameAI.swift:287-299 | the threat is non-negative, and zero when no enemy can reach the cell |
| Planner.GameAI.CalculatePositionThreat | TurnBasedGameSample/AI/GameAI.swift:287-299 | the loop returns the sum of the attacks of the enemies that can reach the cell |
| Planner.TargetWeights | TurnBasedGameSample/AI/GameAI.swift:267-274 | an own unit in an enemy's range weighs 3 if it is a house and 1 otherwise |
| Planner.NoTargetsNoThreat | TurnBasedGameSample/AI/GameAI.swift:260-278 | with no own unit in any enemy's range, the threat level is 0 |
| Planner.GameAI.WeighTargets | TurnBasedGameSample/AI/GameAI.swift:267-274 | the inner loop sums the weights of the targets |
| Planner.GameAI.AssessThreatLevel | TurnBasedGameSample/AI/GameAI.swift:260-278 | the loop returns the sum over living enemies of their targets' weights |
| Planner.ProtectedBuildingsBounds | TurnBasedGameSample/AI/GameAI.swift:301-308 | every own building within distance 2 is counted, and the count is at most the side's living units |
| Planner.ChooseOptimalMilitaryUnit | TurnBasedGameSample/AI/GameAI.swift:152-165 | the choice is always a soldier |
| Planner.MilitaryChoiceIsCostliestAffordable | TurnBasedGameSample/AI/GameAI.swift:152-165 | with at least a scout's price in gold, the choice is affordable, and no affordable soldier costs more |
| Planner.FirstWhere | TurnBasedGameSample/AI/GameAI.swift:245-247 | none iff no listed cell holds a matching unit; otherwise a listed cell with a matching unit |
| Planner.FirstMinBy | TurnBasedGameSample/AI/GameAI.swift:250 | none iff no listed cell is occupied; otherwise an occupied listed cell of least key |
| Planner.LastMaxBy | TurnBasedGameSample/AI/GameAI.swift:255 | none iff no listed cell is occupied; otherwise an occupied listed cell of greatest key |
| Planner.Weak | TurnBasedGameSample/AI/GameAI.swift:250 | the weak targets are the occupied listed cells with health at most 30 |
| Planner.TargetPriority | TurnBasedGameSample/AI/GameAI.swift:238-256 | none iff no target cell is occupied; a house if any target holds one; else a least-health unit among those at most 30; else a costliest unit |
| Planner.BestTargetIsPreferred | TurnBasedGameSample/AI/GameAI.swift:238-256 | in whatever order a set of occupied targets is listed, the pick is none iff the set is empty, and otherwise a preferred target of the set (the three tiers above) |
| Planner.GameAI.AddFreeNeighbors | TurnBasedGameSample/AI/GameAI.swift:174-178 | one unit's valid, empty neighbours are added to the candidates |
| Planner.GameAI.CollectBuildCandidates | TurnBasedGameSample/AI/GameAI.swift:168-182 | the candidates are the valid, empty neighbours of the side's living units |
| Planner.GameAI.ScoreBuild | TurnBasedGameSample/AI/GameAI.swift:184-198 | a house scores by position threat, other kinds by nearest-enemy distance |
| Planner.GameAI.LeastBuildScore | TurnBasedGameSample/AI/GameAI.swift:184-198 | the pick is a candidate of least score |
| Planner.GameAI.FindBestBuildPosition | TurnBasedGameSample/AI/GameAI.swift:167-199 | none iff there is no candidate; otherwise a candidate of least threat (house) or least nearest-enemy distance (other kinds) |
| Planner.DefenseCandidatesAdd | TurnBasedGameSample/AI/GameAI.swift:207-213 | adding a house adds the valid, empty cells at distance 1 to 2 from it |
| Planner.GameAI.CollectDefenseCandidates | TurnBasedGameSample/AI/GameAI.swift:201-213 | the candidates are the valid, empty cells within distance 2 of an own living house |
| Planner.GameAI.FindBestDefensePosition | TurnBasedGameSample/AI/GameAI.swift:201-220 | none iff there is no candidate; otherwise a candidate protecting the most own buildings |
| Planner.GameAI.FindOptimalMove | TurnBasedGameSample/AI/GameAI.swift:222-236 | none iff the unit cannot move or has nowhere to go; otherwise a reachable cell of least nearest-enemy distance |
| Planner.GameAI.NearestToEnemy | TurnBasedGameSample/AI/GameAI.swift:227-231 | the `min` loop returns a cell of the set of least nearest-enemy distance |
| Planner.TryBuildOutcome | TurnBasedGameSample/AI/GameAI.swift:72-101 | a build attempt places the unit and debits the cost exactly when a cell was found and the build rules allow it; otherwise nothing changes; the turn fields and the other side's gold are kept |
| Planner.GameAI.TryHouse | TurnBasedGameSample/AI/GameAI.swift:71-79 | a house cell is chosen iff fewer than 3 houses, enough gold and some candidate; the cell has least threat; the board is the attempted build |
| Planner.GameAI.TryTower | TurnBasedGameSample/AI/GameAI.swift:81-90 | a tower cell is chosen iff threat above 2, enough gold and some candidate; the cell protects the most buildings; the board is the attempted build |
| Planner.GameAI.TryMilitary | TurnBasedGameSample/AI/GameAI.swift:92-102 | the kind is the gold tier's soldier; a cell is chosen iff it is affordable and there is a candidate; the cell is nearest the enemy; the board is the attempted build |
| Planner.GameAI.PerformBuildPhase | TurnBasedGameSample/AI/GameAI.swift:64-107 | the phase is three build attempts, then one next-phase step; the tower check uses the gold read before the house; a soldier is tried only when neither earlier attempt found a cell |
| Planner.Enumerate | TurnBasedGameSample/AI/GameAI.swift:136 | turning a set into an array lists each element exactly once |
| Planner.InsertByAttack | TurnBasedGameSample/AI/GameAI.swift:132 | insertion adds exactly the new element |
| Planner.InsertKeepsOrder | TurnBasedGameSample/AI/GameAI.swift:132 | insertion keeps the list in non-increasing attack order |
| Planner.SortByAttack | TurnBasedGameSample/AI/GameAI.swift:132 | the sorted list is a permutation of the input in non-increasing attack order |
| Planner.GameAI.MoveOne | TurnBasedGameSample/AI/GameAI.swift:112-121 | when the unit belongs to the side to move and has somewhere to go, it moves to a reachable cell of least nearest-enemy distance; otherwise nothing changes; unit and living counts are kept |
| Planner.GameAI.PerformMovePhase | TurnBasedGameSample/AI/GameAI.swift:109-126 | each own unit that could move when the phase began takes exactly one such step, in some order, each on the board the previous step left; counts and enemy units are kept; one next-phase step ends it |
| Planner.GameAI.MoveEach | TurnBasedGameSample/AI/GameAI.swift:112-121 | the loop records one step per unit of the set, each exactly once |
| Planner.GameAI.AttackOne | TurnBasedGameSample/AI/GameAI.swift:134-143 | when the attacker belongs to the side to move and has a target, it attacks a preferred target; otherwise nothing changes; own living units are kept and enemies can only be lost |
| Planner.GameAI.PerformCombatPhase | TurnBasedGameSample/AI/GameAI.swift:128-148 | attackers are exactly the own units that could attack, in non-increasing attack order, and each takes its attack turn in that order on the board the previous one left; own units survive, enemies can only be lost; one next-phase step ends it |
| Planner.GameAI.AttackEach | TurnBasedGameSample/AI/GameAI.swift:134-143 | the loop gives each listed attacker its turn, in list order |
| Planner.GameAI.MakeMove | TurnBasedGameSample/AI/GameAI.swift:33-60 | nothing changes off the AI's turn; otherwise exactly one next-phase step ends the call, and Income and EndTurn do nothing else |
| Levels.MakeLevelIsFair | TurnBasedGameSample/Scripts/LevelGenerator.swift:25-38 | a configuration gives both sides the same starting gold |
| Levels.StandardLevelsAreFair | TurnBasedGameSample/Scripts/LevelGenerator.swift:43-141 | five catalogue levels, each fair in gold, with both sides listing the same kinds in the same order |
| Levels.StandardLevelsOnMap | TurnBasedGameSample/Scripts/LevelGenerator.swift:43-118 | the first four catalogue levels keep every unit on their map |
| Levels.LargeBattleOffMap | TurnBasedGameSample/Scripts/LevelGenerator.swift:120-140 | Large Battle's only off-map cells are (2, 5) for player 1 and (-2, -5) for player 2, both at distance 7 on a radius-6 map |
| Levels.TablesOrdered | TurnBasedGameSample/Scripts/LevelGenerator.swift:165-199 | base gold is 150/100/70, unit counts are 2/3/4, radii are 3/4/6, in that order |
| Levels.GenerateBalancedLevel | TurnBasedGameSample/Scripts/LevelGenerator.swift:203-230 | the append loop builds a house plus min(unitCount, 3) soldiers, with player 2 mirrored |
| Levels.GenerateEconomicLevel | TurnBasedGameSample/Scripts/LevelGenerator.swift:232-259 | the append loop builds max(2, unitCount/2) houses and a scout, with player 2 mirrored and 50 bonus gold |
| Levels.GenerateMilitaryLevel | TurnBasedGameSample/Scripts/LevelGenerator.swift:261-290 | the append loop builds a house plus min(unitCount, 5) soldiers on staggered rows, with player 2 mirrored and 20 gold less |
| Levels.GenerateDefensiveLevel | TurnBasedGameSample/Scripts/LevelGenerator.swift:292-322 | the append loop builds a tower, a house and min(unitCount-1, 3) soldiers, with player 2 mirrored |
| Levels.GenerateRandomLevel | TurnBasedGameSample/Scripts/LevelGenerator.swift:146-163 | the tables pick radius, gold and unit count, and the style picks the generator |
| Levels.RandomLevelGold | TurnBasedGameSample/Scripts/LevelGenerator.swift:146-322 | a generated level has the table radius, equal gold of base plus the style bonus (between 50 and 200), and no neutral buildings |
| Levels.RandomLevelShape | TurnBasedGameSample/Scripts/LevelGenerator.swift:203-322 | per-style unit counts 1+min(uc,3), max(2,uc/2)+1, 1+min(uc,5), 2+min(uc-1,3); player 2 at (q, -r) for each of player 1's (q, r); the same kinds in the same order |
| Levels.BalancedPlaced | TurnBasedGameSample/Scripts/LevelGenerator.swift:203-220 | for radius at least 2, both sides are on the map without a repeated cell, and player 1 is north of the centre from radius 3 |
| Levels.EconomicPlaced | TurnBasedGameSample/Scripts/LevelGenerator.swift:232-249 | the same, for up to three houses |
| Levels.MilitaryPlaced | TurnBasedGameSample/Scripts/LevelGenerator.swift:261-280 | the same, with player 1 north of the centre only from radius 4 |
| Levels.DefensivePlaced | TurnBasedGameSample/Scripts/LevelGenerator.swift:292-313 | the same as for the balanced level |
| Levels.GeneratedUnitsPlaced | TurnBasedGameSample/Scripts/LevelGenerator.swift:203-313 | all four styles, combined |
| Levels.RandomLevelOnMap | TurnBasedGameSample/Scripts/LevelGenerator.swift:146-322 | every generated level keeps both sides on the map, each side on distinct cells |
| Levels.RandomLevelCollisions | TurnBasedGameSample/Scripts/LevelGenerator.swift:203-322 | the two sides share no cell iff the level is not the small military one |
| Levels.SmallMilitaryCollision | TurnBasedGameSample/Scripts/LevelGenerator.swift:273-279 | both sides list a knight at (-1, 0), and on Hard both list a scout at (1, 0) |
| Levels.BalancedStatsAgree | TurnBasedGameSample/Scripts/LevelGenerator.swift:328-338 | the suggested table covers every kind and matches the factory's health, attack, cost, movement and range |
| Levels.TotalValue | TurnBasedGameSample/Scripts/LevelGenerator.swift:345-346 | the reduce sums the cost of the side's living units |
| Levels.AnalyzeBalance | TurnBasedGameSample/Scripts/LevelGenerator.swift:341-349 | the report holds each side's unit value and its income of 10 per house |
| Levels.UnitValueNonNegative | TurnBasedGameSample/Scripts/LevelGenerator.swift:345-346 | with non-negative costs a side's unit value is non-negative |
| Levels.UnitValueAdd | TurnBasedGameSample/Scripts/LevelGenerator.swift:345-346 | a new living unit on an empty cell adds its cost to its side's value and leaves the other side's alone |
| Levels.PlacedAt | TurnBasedGameSample/Scripts/LevelGenerator.swift:403-413 | after a placement loop a cell holds a fresh unit of the last placement on it, or what it held before |
| Levels.PlaceAll | TurnBasedGameSample/Scripts/LevelGenerator.swift:403-413 | the loop writes each listed unit over its cell, in order |
| Levels.ApplyLevel | TurnBasedGameSample/Scripts/LevelGenerator.swift:392-419 | the board holds the level's units, both golds are copied, player 1 is in Build on turn 1, and the UI is cleared |
| Levels.LevelUnitsAt | TurnBasedGameSample/Scripts/LevelGenerator.swift:402-413 | a cell holds player 2's last placement on it if any, else player 1's, else nothing |
| Levels.LevelUnitsFieldsAll | TurnBasedGameSample/Scripts/LevelGenerator.swift:392-413 | without repeated or shared cells, each side starts with exactly its listed units, all alive |
| Levels.RandomLevelFieldsAll | TurnBasedGameSample/Scripts/LevelGenerator.swift:392-413 | every generated level except the small military one starts each side with its full per-style count |
| Levels.OverwrittenKind | TurnBasedGameSample/Scripts/LevelGenerator.swift:410-413 | if player 2 lists the only cell where player 1 lists a kind, player 1 starts without that kind |
| Levels.MilitaryKnight | TurnBasedGameSample/Scripts/LevelGenerator.swift:273-279 | the military formation's only knight, and its only unit in column -1, is the third entry |
| Levels.MilitaryOverwrite | TurnBasedGameSample/Scripts/LevelGenerator.swift:410-413 | with the radius-3 military lists, player 2's knight stands on (-1, 0) and player 1 has no knight |
| Levels.SmallMilitaryLosesKnight | TurnBasedGameSample/Scripts/LevelGenerator.swift:273-279 | applying the small military level of any difficulty leaves player 1 without its knight |
| Levels.LargeBattleStartsOffMap | TurnBasedGameSample/Scripts/LevelGenerator.swift:120-140 | applying Large Battle places scouts on (2, 5) and (-2, -5), beyond the map's radius |

## Left out

- Pixel conversion (`toPixel`, `fromPixel`, `hexRound`) and `healthPercentage` are left out: they are floating-point and `sqrt` arithmetic.
- Levels.AnalyzeBalance: the Double ratios and the `isBalanced` band are left out because they are floating point. The gold multipliers are exact integer percentages: the doubles round to 150, 100 and 70.
- The `Codable` wire format is left out. Board.GameMap.FromSaved models only the field-level rehydration: a list of (position, unit) records and the scalar fields.
- Board.GameMap.FromSaved does not place the default starting units first. The source's `init(radius:)` places them and the decoder then overwrites `units`, so the end state is the same.
- SwiftUI views, `@Published`, `UUID` identities and display strings are left out: they are presentation only.
- `async`, `Task.sleep` and `MainActor.run` are left out: they only pace and thread the AI. Each phase is a synchronous method.
- Planner.GameAI.FindOptimalMove does not model `randomElement()` for non-soldiers. No building can move, so that branch is unreachable, and it is random.
- Planner.GameAI.FindBestBuildPosition, Planner.GameAI.FindBestDefensePosition and Planner.GameAI.FindOptimalMove return some optimal element, not a specific one. Ties depend on Swift `Set` order, which is unspecified.
- Planner.GameAI.AttackOne and Planner.GameAI.MoveOne leave ties open: which of several equally preferred targets or equally near cells is picked depends on Swift `Set` order.
- Planner.GameAI.MakeMove states the dispatch and the final next-phase step; the phase content is stated by the three phase methods.
- Planner.GameAI.PerformBuildPhase and the other phase methods require every unit's stats to be sane: attack range at least 0, and movement at least 1 for soldiers. The source would trap in its ranges otherwise. Every unit the factory creates meets this.
- The phase methods do not require their own phase: like the source, they can be called in any phase.
- `getUnits` returns units, and each unit carries its position. Board.LivingUnits returns the positions, because in this model the position is the dictionary key.
- Units are values rather than shared references. Within one phase the source reaches each unit only through the board's dictionary, so an update in place and an update of the map entry agree.
- Swift `Int` overflow is not modelled: integers are unbounded. Int.max appears only as the no-enemy distance.
- Levels.ApplyLevel cannot change the map's radius or cells, as in the source. A level of another radius keeps the board's cells, and its units are written even where they lie off the map.
- Levels.GeneratedUnitsPlaced covers unit counts up to 7, that is, economic rows of at most three houses. With four houses player 2's leftmost house would fall off the map. The tables never produce a unit count above 4.
- Planner.TargetPriority returns none exactly when no target cell holds a unit. The source returns nil early for an empty list, and a list of only empty cells also yields nil.
