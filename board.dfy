/**
  The game board: the phase cycle, the read-only queries over the unit map
  (counts, income, costs, the win condition) and the `GameMap` class whose
  methods place, move, attack with and build units and advance the turn.
*/
module Board {
  import opened Hex
  import opened Units
  import opened Options

  // The phase cycle.

  datatype Phase = Income | Build | Move | Combat | EndTurn

  /** The `next` property of a turn phase: the fixed five-step cycle. */
  function Next(p: Phase): (n: Phase)
    ensures n != p
  {
    match p
    case Income => Build
    case Build => Move
    case Move => Combat
    case Combat => EndTurn
    case EndTurn => Income
  }

  /** Five steps of `Next` come back to the same phase, and no fewer do. */
  lemma NextCycles(p: Phase)
    ensures Next(Next(Next(Next(Next(p))))) == p
    ensures Next(Next(p)) != p && Next(Next(Next(p))) != p && Next(Next(Next(Next(p)))) != p
  {
  }

  datatype GameMode = SelectUnitMode | MoveUnitMode | AttackUnitMode | BuildUnitMode

  // Read-only queries over the unit map.

  /** The cells holding a living unit of the given side (`getUnits`). */
  function LivingUnits(units: map<Coord, Unit>, side: Side): (cells: set<Coord>)
    ensures forall p :: p in cells <==> p in units && units[p].owner == side && IsAlive(units[p])
  {
    set p | p in units && units[p].owner == side && IsAlive(units[p])
  }

  /** The cells holding a living unit of the given kind and side. */
  function UnitsOfKind(units: map<Coord, Unit>, kind: UnitKind, side: Side): (cells: set<Coord>)
    ensures cells <= LivingUnits(units, side)
  {
    set p | p in units && units[p].kind == kind && units[p].owner == side && IsAlive(units[p])
  }

  /** `countUnits`: how many living units of a kind a side has. */
  function CountUnits(units: map<Coord, Unit>, kind: UnitKind, side: Side): nat
  {
    |UnitsOfKind(units, kind, side)|
  }

  /** The gold a side collects each turn: ten per living house. */
  function IncomeOf(units: map<Coord, Unit>, side: Side): (g: int)
    ensures g >= 0 && g % 10 == 0
  {
    10 * CountUnits(units, House, side)
  }

  /**
    `getUnitCost`: a house costs 30 plus 20 per living house the side already
    owns; any other kind costs its base cost.
  */
  function GetUnitCost(units: map<Coord, Unit>, kind: UnitKind, side: Side): (c: int)
    ensures c > 0
    ensures kind != House ==> c == Create(kind, side).stats.cost
    ensures kind == House ==> c == HouseCost(CountUnits(units, House, side)) && c >= BaseStats(House).cost
  {
    if kind == House then HouseCost(CountUnits(units, House, side)) else Create(kind, side).stats.cost
  }

  /** Adding one more house of a side to an empty cell makes its next house 20 dearer. */
  lemma HouseCostRises(units: map<Coord, Unit>, at: Coord, side: Side)
    requires at !in units
    ensures GetUnitCost(units[at := Create(House, side)], House, side) == GetUnitCost(units, House, side) + 20
  {
    var before := UnitsOfKind(units, House, side);
    var after := UnitsOfKind(units[at := Create(House, side)], House, side);
    assert after == before + {at};
    assert at !in before;
  }

  /**
    `checkWinCondition`: a side with no living unit loses (player 1 is checked
    first); otherwise a side with five or more living houses wins (player 1
    first); otherwise nobody has won yet.
  */
  function CheckWinCondition(units: map<Coord, Unit>): (winner: Option<Side>)
    ensures winner == None <==>
      LivingUnits(units, Player1) != {} && LivingUnits(units, Player2) != {} &&
      CountUnits(units, House, Player1) < 5 && CountUnits(units, House, Player2) < 5
    ensures winner == Some(Player1) <==>
      LivingUnits(units, Player1) != {} &&
      (LivingUnits(units, Player2) == {} || CountUnits(units, House, Player1) >= 5)
    ensures winner == Some(Player2) <==>
      LivingUnits(units, Player1) == {} ||
      (LivingUnits(units, Player2) != {} && CountUnits(units, House, Player1) < 5 && CountUnits(units, House, Player2) >= 5)
  {
    if LivingUnits(units, Player1) == {} then Some(Player2)
    else if LivingUnits(units, Player2) == {} then Some(Player1)
    else if CountUnits(units, House, Player1) >= 5 then Some(Player1)
    else if CountUnits(units, House, Player2) >= 5 then Some(Player2)
    else None
  }

  /** A side that still has a living unit never loses while its opponent has none. */
  lemma EliminationDecides(units: map<Coord, Unit>, side: Side)
    requires LivingUnits(units, side) != {} && LivingUnits(units, Opponent(side)) == {}
    ensures CheckWinCondition(units) == Some(side)
  {
  }

  // Unit map updates made by the board's actions.

  /**
    The unit a move leaves behind: a freshly created unit of the same kind and
    owner (so with its kind's base stats), carrying over the health and the
    attacked flag and marked as moved.
  */
  function Relocated(u: Unit): (m: Unit)
    ensures m.kind == u.kind && m.owner == u.owner && m.health == u.health
    ensures m.hasMoved && m.hasAttacked == u.hasAttacked && m.stats == BaseStats(u.kind)
  {
    Create(u.kind, u.owner).(health := u.health, hasMoved := true, hasAttacked := u.hasAttacked)
  }

  /** The unit map after the unit at `from` moves to `to`. */
  function AfterMove(units: map<Coord, Unit>, from: Coord, to: Coord): map<Coord, Unit>
    requires from in units
  {
    (units - {from})[to := Relocated(units[from])]
  }

  /**
    A move empties `from`, fills `to` with a unit that cannot move again this
    turn, leaves every other cell as it was, and keeps the number of units
    when `to` was empty.
  */
  lemma MoveOutcome(units: map<Coord, Unit>, from: Coord, to: Coord)
    requires from in units && to !in units
    ensures var after := AfterMove(units, from, to);
      from !in after && to in after && !CanMove(after[to]) &&
      (CanAttack(after[to]) <==> CanAttack(units[from])) &&
      (forall p :: p != from && p != to ==> (p in after <==> p in units) && (p in units ==> after[p] == units[p])) &&
      |after| == |units|
  {
    var after := AfterMove(units, from, to);
    assert after.Keys == units.Keys - {from} + {to};
    assert |units.Keys - {from}| == |units.Keys| - 1;
  }

  /** A move carries a living unit's cell from `from` to `to` in its side's living set. */
  lemma MoveKeepsArmy(units: map<Coord, Unit>, from: Coord, to: Coord)
    requires from in units && to !in units && IsAlive(units[from])
    ensures var side := units[from].owner;
      LivingUnits(AfterMove(units, from, to), side) == LivingUnits(units, side) - {from} + {to}
    ensures LivingUnits(AfterMove(units, from, to), Opponent(units[from].owner)) ==
      LivingUnits(units, Opponent(units[from].owner))
  {
  }

  /**
    The unit map after the unit at `a` attacks the unit at `t`: the target
    takes the attacker's attack as damage and is removed if it dies, and the
    attacker is marked as having attacked.
  */
  function AfterAttack(units: map<Coord, Unit>, a: Coord, t: Coord): map<Coord, Unit>
    requires a in units && t in units
  {
    var hit := TakeDamage(units[t], units[a].stats.attack);
    var marked := units[a].(hasAttacked := true);
    var updated := units[t := hit][a := marked];
    if IsAlive(hit) then updated else updated - {t}
  }

  /**
    An attack removes the target exactly when the damage reaches its health,
    otherwise lowers its health by exactly the attack, marks the attacker, and
    changes no other cell.
  */
  lemma AttackOutcome(units: map<Coord, Unit>, a: Coord, t: Coord)
    requires a in units && t in units && a != t
    ensures var after := AfterAttack(units, a, t);
      (t in after <==> units[a].stats.attack < units[t].health) &&
      (t in after ==> after[t] == units[t].(health := units[t].health - units[a].stats.attack)) &&
      a in after && after[a] == units[a].(hasAttacked := true) && !CanAttack(after[a]) &&
      (forall p :: p != a && p != t ==> (p in after <==> p in units) && (p in units ==> after[p] == units[p]))
  {
  }

  /** An attack with a non-negative attack never adds a unit and never revives one. */
  lemma AttackShrinksArmies(units: map<Coord, Unit>, a: Coord, t: Coord, side: Side)
    requires a in units && t in units && a != t && units[a].stats.attack >= 0
    ensures LivingUnits(AfterAttack(units, a, t), side) <= LivingUnits(units, side)
    ensures AfterAttack(units, a, t).Keys <= units.Keys
  {
  }

  /** Every unit on the map has stats the flood fill and the range scan accept. */
  predicate AllSane(units: map<Coord, Unit>)
  {
    forall p :: p in units ==> SaneStats(units[p])
  }

  /** A move keeps every side's number of living units and the number of occupied cells. */
  lemma MoveKeepsCounts(units: map<Coord, Unit>, from: Coord, to: Coord)
    requires from in units && to !in units && IsAlive(units[from])
    ensures |AfterMove(units, from, to)| == |units|
    ensures |LivingUnits(AfterMove(units, from, to), Player1)| == |LivingUnits(units, Player1)|
    ensures |LivingUnits(AfterMove(units, from, to), Player2)| == |LivingUnits(units, Player2)|
    ensures AllSane(units) ==> AllSane(AfterMove(units, from, to))
  {
    MoveOutcome(units, from, to);
    MoveKeepsArmy(units, from, to);
    var side := units[from].owner;
    var mine := LivingUnits(units, side);
    assert |mine - {from}| == |mine| - 1;
    assert |mine - {from} + {to}| == |mine|;
    OpponentInvolution(side);
    assert side == Player1 || Opponent(side) == Player1;
  }

  /**
    In an attack on a living unit of the other side, the attacker's side keeps
    exactly its living units and the target's side loses at most the target.
  */
  lemma AttackSpares(units: map<Coord, Unit>, a: Coord, t: Coord)
    requires a in units && t in units && units[a].owner != units[t].owner && IsAlive(units[t])
    ensures LivingUnits(AfterAttack(units, a, t), units[a].owner) == LivingUnits(units, units[a].owner)
    ensures LivingUnits(AfterAttack(units, a, t), units[t].owner) <= LivingUnits(units, units[t].owner)
    ensures AfterAttack(units, a, t).Keys <= units.Keys
    ensures AllSane(units) ==> AllSane(AfterAttack(units, a, t))
  {
  }

  /** Every unit of the given side with its turn flags cleared. */
  function ResetSide(units: map<Coord, Unit>, side: Side): map<Coord, Unit>
  {
    map p | p in units :: if units[p].owner == side then ResetTurnFlags(units[p]) else units[p]
  }

  /** Clearing turn flags changes no kind, owner or health, so no count. */
  lemma ResetKeepsCounts(units: map<Coord, Unit>, side: Side, kind: UnitKind, s: Side)
    ensures ResetSide(units, side).Keys == units.Keys
    ensures UnitsOfKind(ResetSide(units, side), kind, s) == UnitsOfKind(units, kind, s)
    ensures LivingUnits(ResetSide(units, side), s) == LivingUnits(units, s)
  {
    var reset := ResetSide(units, side);
    assert UnitsOfKind(reset, kind, s) == UnitsOfKind(units, kind, s);
  }

  // The persisted game state.

  /** The state `GameMap` persists, without the map shape and the UI state. */
  datatype GameState = GameState(units: map<Coord, Unit>, currentPlayer: Side, turnPhase: Phase,
                                 turnNumber: int, player1Gold: int, player2Gold: int)

  /**
    The state after `endTurn`: the current side's units get their flags
    cleared, the other side takes the turn, both sides collect income, the
    phase is Build, and the turn number grows when player 1 takes the turn.
  */
  function EndTurnState(s: GameState): GameState
  {
    var units := ResetSide(s.units, s.currentPlayer);
    var next := Opponent(s.currentPlayer);
    GameState(units, next, Build,
              if next == Player1 then s.turnNumber + 1 else s.turnNumber,
              s.player1Gold + IncomeOf(units, Player1), s.player2Gold + IncomeOf(units, Player2))
  }

  /**
    Ending a turn hands it to the opponent in the Build phase, pays both sides
    the income of their houses, keeps every unit where it was, and makes every
    living unit of the side that ended its turn able to attack again.
  */
  lemma EndTurnOutcome(s: GameState)
    ensures var e := EndTurnState(s);
      e.currentPlayer == Opponent(s.currentPlayer) && e.turnPhase == Build &&
      e.player1Gold == s.player1Gold + IncomeOf(s.units, Player1) &&
      e.player2Gold == s.player2Gold + IncomeOf(s.units, Player2) &&
      e.units.Keys == s.units.Keys &&
      (forall p :: p in s.units && s.units[p].owner != s.currentPlayer ==> e.units[p] == s.units[p]) &&
      (forall p :: p in s.units && s.units[p].owner == s.currentPlayer ==>
         e.units[p].kind == s.units[p].kind && e.units[p].health == s.units[p].health &&
         (CanAttack(e.units[p]) <==> IsAlive(s.units[p])))
  {
    ResetKeepsCounts(s.units, s.currentPlayer, House, Player1);
    ResetKeepsCounts(s.units, s.currentPlayer, House, Player2);
  }

  /** Two ends of turn give the turn back to the same side one turn number later. */
  lemma FullRound(s: GameState)
    ensures EndTurnState(EndTurnState(s)).currentPlayer == s.currentPlayer
    ensures EndTurnState(EndTurnState(s)).turnNumber == s.turnNumber + 1
  {
  }

  /**
    The state after `nextPhase`: the End Turn phase ends the turn; any other
    phase moves one step along the cycle (Income moves to Build).
  */
  function NextPhaseState(s: GameState): GameState
  {
    if s.turnPhase == EndTurn then EndTurnState(s) else s.(turnPhase := Next(s.turnPhase))
  }

  /**
    Income is never entered by `nextPhase`, and four calls starting from Build
    hand the turn, in Build again, to the opponent.
  */
  lemma PhaseProgress(s: GameState)
    ensures NextPhaseState(s).turnPhase != Income
    ensures s.turnPhase == Build ==>
      var t := NextPhaseState(NextPhaseState(NextPhaseState(NextPhaseState(s))));
      t.turnPhase == Build && t.currentPlayer == Opponent(s.currentPlayer)
  {
  }

  /** One saved unit: where it stands and what it is. */
  datatype SavedUnit = SavedUnit(position: Coord, unit: Unit)

  /** The unit map rebuilt from a saved list, keyed by each unit's position. */
  function UnitsFrom(saved: seq<SavedUnit>): (units: map<Coord, Unit>)
    ensures forall p :: p in units <==> exists i :: 0 <= i < |saved| && saved[i].position == p
  {
    if |saved| == 0 then map[]
    else UnitsFrom(saved[..|saved| - 1])[saved[|saved| - 1].position := saved[|saved| - 1].unit]
  }

  /** Positions of a saved list are pairwise distinct. */
  predicate DistinctPositions(saved: seq<SavedUnit>)
  {
    forall i, j :: 0 <= i < j < |saved| ==> saved[i].position != saved[j].position
  }

  /** With distinct positions every saved unit lands at its own position. */
  lemma {:induction false} UnitsFromKeepsEach(saved: seq<SavedUnit>, i: int)
    requires DistinctPositions(saved) && 0 <= i < |saved|
    ensures saved[i].position in UnitsFrom(saved) && UnitsFrom(saved)[saved[i].position] == saved[i].unit
    decreases |saved|
  {
    if i < |saved| - 1 {
      var front := saved[..|saved| - 1];
      assert front[i] == saved[i];
      UnitsFromKeepsEach(front, i);
    }
  }

  /**
    Saving a unit map as a list that names each of its cells exactly once and
    loading it back gives the same map.
  */
  lemma SaveLoadRoundTrip(units: map<Coord, Unit>, saved: seq<SavedUnit>)
    requires DistinctPositions(saved)
    requires forall i :: 0 <= i < |saved| ==> saved[i].position in units && units[saved[i].position] == saved[i].unit
    requires forall p :: p in units ==> exists i :: 0 <= i < |saved| && saved[i].position == p
    ensures UnitsFrom(saved) == units
  {
    var loaded := UnitsFrom(saved);
    forall p | p in units
      ensures p in loaded && loaded[p] == units[p]
    {
      var i :| 0 <= i < |saved| && saved[i].position == p;
      UnitsFromKeepsEach(saved, i);
    }
    assert loaded.Keys == units.Keys;
  }

  // The starting layout.

  /** The unit `setupInitialUnits` places at a start cell, if it is one. */
  function StartUnit(p: Coord): Option<Unit>
  {
    if p == Coord(-1, 3) || p == Coord(1, 3) then Some(Create(Scout, Player1))
    else if p == Coord(0, 3) then Some(Create(House, Player1))
    else if p == Coord(-1, -3) || p == Coord(1, -3) then Some(Create(Scout, Player2))
    else if p == Coord(0, -3) then Some(Create(House, Player2))
    else None
  }

  /**
    Two of the six start cells lie at distance 4 from the centre and the other
    four at distance 3: a map of radius 3 gets one scout fewer per side, and a
    map of radius 2 or less gets no unit at all.
  */
  lemma StartCellDistances()
    ensures Distance(Origin, Coord(1, 3)) == 4 && Distance(Origin, Coord(-1, -3)) == 4
    ensures Distance(Origin, Coord(-1, 3)) == 3 && Distance(Origin, Coord(0, 3)) == 3
    ensures Distance(Origin, Coord(1, -3)) == 3 && Distance(Origin, Coord(0, -3)) == 3
  {
  }

  /** The unit map after `placeUnit`: the unit lands only on a valid empty cell. */
  function PlaceIfFree(units: map<Coord, Unit>, valid: set<Coord>, u: Unit, at: Coord): map<Coord, Unit>
  {
    if at in valid && at !in units then units[at := u] else units
  }

  /** The six placements of `setupInitialUnits`, in their order. */
  function InitialLayout(units: map<Coord, Unit>, valid: set<Coord>): map<Coord, Unit>
  {
    var m1 := PlaceIfFree(units, valid, Create(Scout, Player1), Coord(-1, 3));
    var m2 := PlaceIfFree(m1, valid, Create(House, Player1), Coord(0, 3));
    var m3 := PlaceIfFree(m2, valid, Create(Scout, Player1), Coord(1, 3));
    var m4 := PlaceIfFree(m3, valid, Create(Scout, Player2), Coord(-1, -3));
    var m5 := PlaceIfFree(m4, valid, Create(House, Player2), Coord(0, -3));
    PlaceIfFree(m5, valid, Create(Scout, Player2), Coord(1, -3))
  }

  /**
    The initial placements keep every unit already there and fill exactly the
    valid, empty start cells with their start units.
  */
  lemma InitialLayoutCells(units: map<Coord, Unit>, valid: set<Coord>, p: Coord)
    ensures var m := InitialLayout(units, valid);
      (p in m <==> p in units || (StartUnit(p).Some? && p in valid)) &&
      (p in m ==> m[p] == if p in units then units[p] else StartUnit(p).value)
  {
    var m1 := PlaceIfFree(units, valid, Create(Scout, Player1), Coord(-1, 3));
    var m2 := PlaceIfFree(m1, valid, Create(House, Player1), Coord(0, 3));
    var m3 := PlaceIfFree(m2, valid, Create(Scout, Player1), Coord(1, 3));
    var m4 := PlaceIfFree(m3, valid, Create(Scout, Player2), Coord(-1, -3));
    var m5 := PlaceIfFree(m4, valid, Create(House, Player2), Coord(0, -3));
    var m6 := PlaceIfFree(m5, valid, Create(Scout, Player2), Coord(1, -3));
    PlaceIfFreeAt(units, valid, Create(Scout, Player1), Coord(-1, 3), p);
    PlaceIfFreeAt(m1, valid, Create(House, Player1), Coord(0, 3), p);
    PlaceIfFreeAt(m2, valid, Create(Scout, Player1), Coord(1, 3), p);
    PlaceIfFreeAt(m3, valid, Create(Scout, Player2), Coord(-1, -3), p);
    PlaceIfFreeAt(m4, valid, Create(House, Player2), Coord(0, -3), p);
    PlaceIfFreeAt(m5, valid, Create(Scout, Player2), Coord(1, -3), p);
    assert m6 == InitialLayout(units, valid);
  }

  /** `placeUnit` seen from one cell. */
  lemma PlaceIfFreeAt(units: map<Coord, Unit>, valid: set<Coord>, u: Unit, at: Coord, p: Coord)
    ensures var m := PlaceIfFree(units, valid, u, at);
      (p in m <==> p in units || (p == at && at in valid)) &&
      (p in m ==> m[p] == if p in units then units[p] else u)
  {
  }

  /**
    On a map of radius 2 or less no start cell is valid, so `init(radius:)`
    leaves the board empty and the new game is already won by player 2.
  */
  lemma TinyMapIsLost(radius: int, valid: set<Coord>)
    requires 0 <= radius <= 2
    requires forall c :: c in valid ==> Distance(Origin, c) <= radius
    ensures InitialLayout(map[], valid) == map[]
    ensures CheckWinCondition(InitialLayout(map[], valid)) == Some(Player2)
  {
    var m := InitialLayout(map[], valid);
    forall p | p in m
      ensures false
    {
      InitialLayoutCells(map[], valid, p);
      StartCellDistances();
    }
    assert m == map[];
  }

  // The board object.

  class GameMap {
    const mapRadius: int
    const validPositions: set<Coord>

    var units: map<Coord, Unit>
    var currentPlayer: Side
    var turnPhase: Phase
    var turnNumber: int
    var player1Gold: int
    var player2Gold: int

    var selectedUnit: Option<Unit>
    var highlightedPositions: set<Coord>
    var gameMode: GameMode

    /** The persisted part of the board. */
    ghost function State(): GameState
      reads this
    {
      GameState(units, currentPlayer, turnPhase, turnNumber, player1Gold, player2Gold)
    }

    /** The gold of one side. */
    function GoldOf(side: Side): int
      reads this
    {
      if side == Player1 then player1Gold else player2Gold
    }

    /** True when the UI selection state is cleared. */
    predicate UiCleared()
      reads this
    {
      selectedUnit == None && highlightedPositions == {} && gameMode == SelectUnitMode
    }

    /**
      `init(radius:)`: the hexagonal map of the given radius, 100 gold each,
      player 1 in the Build phase of turn 1, and the starting units on
      whichever start cells lie on the map.
    */
    constructor (radius: int := 4)
      requires radius >= 0
      ensures mapRadius == radius
      ensures forall c :: c in validPositions <==> Distance(Origin, c) <= radius
      ensures units == InitialLayout(map[], validPositions)
      ensures currentPlayer == Player1 && turnPhase == Build && turnNumber == 1
      ensures player1Gold == 100 && player2Gold == 100 && UiCleared()
    {
      mapRadius := radius;
      var cells := GenerateHexMap(radius);
      validPositions := cells;
      units := map[];
      currentPlayer := Player1;
      turnPhase := Build;
      turnNumber := 1;
      player1Gold := 100;
      player2Gold := 100;
      selectedUnit := None;
      highlightedPositions := {};
      gameMode := SelectUnitMode;
      new;
      SetupInitialUnits();
    }

    /**
      `init(from:)`: a board of the saved radius (its starting units are
      replaced) with the saved units at their positions and the saved turn
      state; the UI state starts clean. Duplicate positions trap in the source.
    */
    constructor FromSaved(radius: int, saved: seq<SavedUnit>, player: Side, phase: Phase,
                          turn: int, gold1: int, gold2: int)
      requires radius >= 0 && DistinctPositions(saved)
      ensures mapRadius == radius
      ensures forall c :: c in validPositions <==> Distance(Origin, c) <= radius
      ensures State() == GameState(UnitsFrom(saved), player, phase, turn, gold1, gold2)
      ensures UiCleared()
    {
      // The starting units that init(radius:) places are all replaced below,
      // so they are not placed here.
      mapRadius := radius;
      var cells := GenerateHexMap(radius);
      validPositions := cells;
      units := UnitsFrom(saved);
      currentPlayer := player;
      turnPhase := phase;
      turnNumber := turn;
      player1Gold := gold1;
      player2Gold := gold2;
      selectedUnit := None;
      highlightedPositions := {};
      gameMode := SelectUnitMode;
    }

    /** `unit(at:)`. */
    function UnitAt(p: Coord): (r: Option<Unit>)
      reads this
      ensures r.Some? <==> p in units
    {
      if p in units then Some(units[p]) else None
    }

    /** `placeUnit`: succeeds only on a valid empty cell, and then only fills that cell. */
    method PlaceUnit(u: Unit, at: Coord) returns (ok: bool)
      modifies this`units
      ensures ok <==> at in validPositions && at !in old(units)
      ensures units == PlaceIfFree(old(units), validPositions, u, at)
    {
      if at in validPositions && at !in units {
        units := units[at := u];
        ok := true;
      } else {
        ok := false;
      }
    }

    /** `removeUnit`: empties the cell and returns what stood there. */
    method RemoveUnit(at: Coord) returns (removed: Option<Unit>)
      modifies this`units
      ensures removed == if at in old(units) then Some(old(units)[at]) else None
      ensures units == old(units) - {at}
    {
      removed := UnitAt(at);
      units := units - {at};
    }

    /** The cases in which `moveUnit` reaches the flood fill; there it traps on a movement range below 1. */
    predicate MoveReachesFloodFill(from: Coord, to: Coord)
      reads this
    {
      from in units && units[from].owner == currentPlayer && CanMove(units[from]) &&
      to in validPositions && to !in units
    }

    /**
      `moveUnit`: succeeds exactly when a unit of the current player that can
      still move stands at `from` and `to` is a valid empty cell it can reach
      within its movement range over valid empty cells. The phase is not checked.
    */
    method MoveUnit(from: Coord, to: Coord) returns (ok: bool)
      requires MoveReachesFloodFill(from, to) ==> units[from].stats.movementRange >= 1
      modifies this`units
      ensures ok <==> (old(MoveReachesFloodFill(from, to)) &&
                       to in Ball(validPositions, old(units), from, old(units)[from].stats.movementRange))
      ensures ok ==> units == AfterMove(old(units), from, to)
      ensures !ok ==> units == old(units)
    {
      if !MoveReachesFloodFill(from, to) {
        return false;
      }
      var u := units[from];
      var moves := PossibleMoves(u, from, validPositions, units);
      if to !in moves {
        return false;
      }
      units := AfterMove(units, from, to);
      ok := true;
    }

    /** The cases in which `attackUnit` reaches the range check; there it traps on a negative attack range. */
    predicate AttackReachesRangeCheck(a: Coord, t: Coord)
      reads this
    {
      a in units && t in units && units[a].owner == currentPlayer && CanAttack(units[a]) &&
      units[t].owner != units[a].owner
    }

    /**
      `attackUnit`: succeeds exactly when a unit of the current player that can
      still attack stands at `a` and a living enemy stands at `t` within its
      attack range; the target takes damage and is removed if it dies. The
      phase is not checked.
    */
    method AttackUnit(a: Coord, t: Coord) returns (ok: bool)
      requires AttackReachesRangeCheck(a, t) ==> units[a].stats.attackRange >= 0
      modifies this`units
      ensures ok <==> old(AttackReachesRangeCheck(a, t)) && t in Targets(old(units)[a], a, old(units))
      ensures ok ==> a != t && units == AfterAttack(old(units), a, t)
      ensures !ok ==> units == old(units)
    {
      if !AttackReachesRangeCheck(a, t) {
        return false;
      }
      var targets := PossibleTargets(units[a], a, units);
      if t !in targets {
        return false;
      }
      var attacker := units[a];
      var target := units[t];
      var hit := TakeDamage(target, attacker.stats.attack);
      units := units[t := hit][a := attacker.(hasAttacked := true)];
      if !IsAlive(hit) {
        var _ := RemoveUnit(t);
      }
      ok := true;
    }

    /** `canBuildUnit`: a valid empty cell and enough gold for the unit's cost. */
    predicate CanBuildUnit(kind: UnitKind, at: Coord, side: Side)
      reads this
    {
      at in validPositions && at !in units && GoldOf(side) >= GetUnitCost(units, kind, side)
    }

    /**
      `buildUnit`: when building is possible, pays the cost from the side's gold
      and places a new unit; otherwise changes nothing. Neither the current
      player nor the phase is checked.
    */
    method BuildUnit(kind: UnitKind, at: Coord, side: Side) returns (ok: bool)
      modifies this`units, this`player1Gold, this`player2Gold
      ensures ok <==> old(CanBuildUnit(kind, at, side))
      ensures ok ==> units == old(units)[at := Create(kind, side)] &&
                     GoldOf(side) == old(GoldOf(side)) - old(GetUnitCost(units, kind, side)) &&
                     GoldOf(side) >= 0 && GoldOf(Opponent(side)) == old(GoldOf(Opponent(side)))
      ensures !ok ==> units == old(units) && player1Gold == old(player1Gold) && player2Gold == old(player2Gold)
    {
      if !CanBuildUnit(kind, at, side) {
        return false;
      }
      var cost := GetUnitCost(units, kind, side);
      if side == Player1 {
        player1Gold := player1Gold - cost;
      } else {
        player2Gold := player2Gold - cost;
      }
      units := units[at := Create(kind, side)];
      ok := true;
    }

    /** `collectIncome`: both sides collect ten gold per living house. */
    method CollectIncome()
      modifies this`player1Gold, this`player2Gold
      ensures player1Gold == old(player1Gold) + IncomeOf(units, Player1)
      ensures player2Gold == old(player2Gold) + IncomeOf(units, Player2)
    {
      player1Gold := player1Gold + IncomeOf(units, Player1);
      player2Gold := player2Gold + IncomeOf(units, Player2);
    }

    /** The flag-reset loop of `endTurn`, over the units in an unspecified order. */
    method ResetFlagsOf(side: Side)
      modifies this`units
      ensures units == ResetSide(old(units), side)
    {
      ghost var original := units;
      var todo := units.Keys;
      while todo != {}
        invariant todo <= units.Keys && units.Keys == original.Keys
        invariant forall p :: p in units ==>
          units[p] == if p !in todo && original[p].owner == side then ResetTurnFlags(original[p]) else original[p]
        decreases |todo|
      {
        var p :| p in todo;
        if units[p].owner == side {
          units := units[p := ResetTurnFlags(units[p])];
        }
        todo := todo - {p};
      }
    }

    /** `endTurn`. */
    method EndTurn()
      modifies this`units, this`currentPlayer, this`player1Gold, this`player2Gold, this`turnPhase, this`turnNumber
      ensures State() == EndTurnState(old(State()))
    {
      ResetFlagsOf(currentPlayer);
      currentPlayer := Opponent(currentPlayer);
      CollectIncome();
      turnPhase := Build;
      if currentPlayer == Player1 {
        turnNumber := turnNumber + 1;
      }
    }

    /** `nextPhase`: one step along the phase cycle, or the end of the turn; the UI state is cleared. */
    method NextPhase()
      modifies this
      ensures State() == NextPhaseState(old(State()))
      ensures UiCleared()
    {
      match turnPhase {
        case Income => turnPhase := Build;
        case Build => turnPhase := Move;
        case Move => turnPhase := Combat;
        case Combat => turnPhase := Phase.EndTurn;
        case EndTurn => EndTurn();
      }
      selectedUnit := None;
      highlightedPositions := {};
      gameMode := SelectUnitMode;
    }

    /**
      `setupInitialUnits`: a scout, a house and a scout for each side on its
      start row, each placed only where the cell is valid and still empty.
    */
    method SetupInitialUnits()
      modifies this`units
      ensures units == InitialLayout(old(units), validPositions)
    {
      var _ := PlaceUnit(Create(Scout, Player1), Coord(-1, 3));
      var _ := PlaceUnit(Create(House, Player1), Coord(0, 3));
      var _ := PlaceUnit(Create(Scout, Player1), Coord(1, 3));
      var _ := PlaceUnit(Create(Scout, Player2), Coord(-1, -3));
      var _ := PlaceUnit(Create(House, Player2), Coord(0, -3));
      var _ := PlaceUnit(Create(Scout, Player2), Coord(1, -3));
    }
  }
}
