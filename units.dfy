/**
  Unit kinds, the two sides, the factory stat table, the per-unit turn
  predicates, damage and healing, the breadth-first movement flood fill and
  range-based targeting (Models/GameUnit.swift).

  A unit is a value; its position is the key under which the board stores it.
*/
module Units {
  import opened Hex

  /** The seven unit kinds: four soldiers and three buildings. */
  datatype UnitKind = Scout | Warrior | Knight | Champion | Watchtower | Fortress | House

  predicate IsBuilding(k: UnitKind)
  {
    k == Watchtower || k == Fortress || k == House
  }

  predicate IsSoldier(k: UnitKind)
  {
    k == Scout || k == Warrior || k == Knight || k == Champion
  }

  predicate IsTower(k: UnitKind)
  {
    k == Watchtower || k == Fortress
  }

  /** Every kind is exactly one of soldier and building; towers are buildings. */
  lemma KindClassification(k: UnitKind)
    ensures IsBuilding(k) <==> !IsSoldier(k)
    ensures IsTower(k) ==> IsBuilding(k)
  {
  }

  datatype Side = Player1 | Player2

  function Opponent(s: Side): (o: Side)
    ensures o != s
  {
    match s
    case Player1 => Player2
    case Player2 => Player1
  }

  /** Taking the opponent twice gives back the side. */
  lemma OpponentInvolution(s: Side)
    ensures Opponent(Opponent(s)) == s
  {
  }

  /** The fixed stats a unit carries: maximum health, attack, cost, movement and attack range. */
  datatype Stats = Stats(maxHealth: int, attack: int, cost: int, movementRange: int, attackRange: int)

  /** The stat row the factory assigns to each kind. */
  function BaseStats(k: UnitKind): (st: Stats)
    ensures st.maxHealth > 0 && st.cost > 0 && st.attack >= 0 && st.attackRange >= 0
    ensures st.movementRange == 0 <==> IsBuilding(k)
    ensures IsSoldier(k) ==> st.movementRange >= 2 && st.attackRange == 1
  {
    match k
    case Scout => Stats(20, 5, 10, 3, 1)
    case Warrior => Stats(40, 10, 25, 2, 1)
    case Knight => Stats(70, 18, 50, 2, 1)
    case Champion => Stats(120, 30, 100, 2, 1)
    case Watchtower => Stats(60, 8, 40, 0, 2)
    case Fortress => Stats(120, 15, 80, 0, 3)
    case House => Stats(50, 0, 30, 0, 0)
  }

  /** Soldiers get stronger and dearer in the order scout, warrior, knight, champion. */
  lemma SoldierLadder()
    ensures BaseStats(Scout).cost < BaseStats(Warrior).cost < BaseStats(Knight).cost < BaseStats(Champion).cost
    ensures BaseStats(Scout).attack < BaseStats(Warrior).attack < BaseStats(Knight).attack < BaseStats(Champion).attack
    ensures BaseStats(Fortress).attackRange > BaseStats(Watchtower).attackRange > BaseStats(House).attackRange
  {
  }

  /** A unit: its kind, owner, current health, the two turn flags and its stats. */
  datatype Unit = Unit(kind: UnitKind, owner: Side, health: int, hasMoved: bool, hasAttacked: bool, stats: Stats)

  predicate IsAlive(u: Unit)
  {
    u.health > 0
  }

  predicate IsFullHealth(u: Unit)
  {
    u.health >= u.stats.maxHealth
  }

  predicate CanMove(u: Unit)
  {
    !u.hasMoved && IsAlive(u) && !IsBuilding(u.kind)
  }

  predicate CanAttack(u: Unit)
  {
    !u.hasAttacked && IsAlive(u)
  }

  /**
    The stats under which the movement and targeting loops are defined: the
    closed range 1...movementRange traps below 1 for a unit that can move, and
    -attackRange...attackRange traps on a negative range.
  */
  predicate SaneStats(u: Unit)
  {
    u.stats.attackRange >= 0 && (!IsBuilding(u.kind) ==> u.stats.movementRange >= 1)
  }

  /** The factory: a fresh unit with the kind's stats, full health and clear flags. */
  function Create(kind: UnitKind, owner: Side): (u: Unit)
    ensures u.kind == kind && u.owner == owner && u.stats == BaseStats(kind)
    ensures !u.hasMoved && !u.hasAttacked
    ensures IsAlive(u) && IsFullHealth(u) && u.health == u.stats.maxHealth
    ensures CanAttack(u) && (CanMove(u) <==> IsSoldier(kind))
    ensures SaneStats(u)
  {
    var st := BaseStats(kind);
    Unit(kind, owner, st.maxHealth, false, false, st)
  }

  /** Health drops by the damage but never below zero; nothing else changes. */
  function TakeDamage(u: Unit, damage: int): (r: Unit)
    ensures r == u.(health := r.health)
    ensures r.health >= 0
    ensures r.health == if damage < u.health then u.health - damage else 0
    ensures IsAlive(r) <==> damage < u.health
  {
    u.(health := Max(0, u.health - damage))
  }

  /** Two hits of non-negative damage are one hit of their sum. */
  lemma DamageAccumulates(u: Unit, d1: int, d2: int)
    requires u.health >= 0 && d1 >= 0 && d2 >= 0
    ensures TakeDamage(TakeDamage(u, d1), d2) == TakeDamage(u, d1 + d2)
  {
  }

  /** Health rises by the amount but is capped at the maximum; nothing else changes. */
  function Heal(u: Unit, amount: int): (r: Unit)
    ensures r == u.(health := r.health)
    ensures r.health <= u.stats.maxHealth
    ensures r.health == if u.health + amount < u.stats.maxHealth then u.health + amount else u.stats.maxHealth
    ensures IsFullHealth(r) <==> u.health + amount >= u.stats.maxHealth
  {
    u.(health := Min(u.stats.maxHealth, u.health + amount))
  }

  /** Healing twice by non-negative amounts is healing once by their sum. */
  lemma HealAccumulates(u: Unit, a1: int, a2: int)
    requires a1 >= 0 && a2 >= 0
    ensures Heal(Heal(u, a1), a2) == Heal(u, a1 + a2)
  {
  }

  /** Clears both turn flags and nothing else. */
  function ResetTurnFlags(u: Unit): (r: Unit)
    ensures r == u.(hasMoved := false, hasAttacked := false)
    ensures CanAttack(r) <==> IsAlive(u)
    ensures CanMove(r) <==> IsAlive(u) && !IsBuilding(u.kind)
  {
    u.(hasMoved := false, hasAttacked := false)
  }

  /** The price of the next house grows by 20 gold per house already owned. */
  function HouseCost(existingHouses: int): (c: int)
    ensures c == BaseStats(House).cost + 20 * existingHouses
  {
    30 + existingHouses * 20
  }

  lemma HouseCostProgression(n: int)
    ensures HouseCost(0) == Create(House, Player1).stats.cost
    ensures HouseCost(n + 1) == HouseCost(n) + 20
    ensures n >= 0 ==> HouseCost(n) >= 30
  {
  }

  // Movement: the layered flood fill of possibleMoves.

  /** A cell a unit may step onto: on the map and not occupied. */
  predicate Free(valid: set<Coord>, units: map<Coord, Unit>, c: Coord)
  {
    c in valid && c !in units
  }

  /** The free cells adjacent to some cell of s. */
  ghost function Step(valid: set<Coord>, units: map<Coord, Unit>, s: set<Coord>): set<Coord>
  {
    set n | n in valid && n !in units && exists c :: c in s && n in Neighbors(c)
  }

  /**
    The cells reachable from start in at most k steps, every step landing on a
    free cell (start itself need not be free: the unit stands there).
  */
  ghost function Ball(valid: set<Coord>, units: map<Coord, Unit>, start: Coord, k: nat): set<Coord>
  {
    if k == 0 then {start}
    else var b := Ball(valid, units, start, k - 1); b + Step(valid, units, b)
  }

  /** The cells first reached at exactly k steps. */
  ghost function Layer(valid: set<Coord>, units: map<Coord, Unit>, start: Coord, k: nat): set<Coord>
  {
    if k == 0 then {start} else Ball(valid, units, start, k) - Ball(valid, units, start, k - 1)
  }

  lemma StepUnion(valid: set<Coord>, units: map<Coord, Unit>, a: set<Coord>, b: set<Coord>)
    ensures Step(valid, units, a + b) == Step(valid, units, a) + Step(valid, units, b)
  {
  }

  lemma StepMonotone(valid: set<Coord>, units: map<Coord, Unit>, a: set<Coord>, b: set<Coord>)
    requires a <= b
    ensures Step(valid, units, a) <= Step(valid, units, b)
  {
  }

  lemma {:induction false} BallGrows(valid: set<Coord>, units: map<Coord, Unit>, start: Coord, j: nat, k: nat)
    requires j <= k
    ensures Ball(valid, units, start, j) <= Ball(valid, units, start, k)
    decreases k
  {
    if j < k {
      BallGrows(valid, units, start, j, k - 1);
    }
  }

  /** The next ball is the current one plus the free neighbours of the newest layer only. */
  lemma LayerStep(valid: set<Coord>, units: map<Coord, Unit>, start: Coord, k: nat)
    ensures Ball(valid, units, start, k + 1) ==
      Ball(valid, units, start, k) + Step(valid, units, Layer(valid, units, start, k))
  {
    if k > 0 {
      var older := Ball(valid, units, start, k - 1);
      var b := Ball(valid, units, start, k);
      var layer := Layer(valid, units, start, k);
      assert b == older + layer;
      StepUnion(valid, units, older, layer);
      assert Step(valid, units, older) <= b;
    }
  }

  /** Once a layer is empty, the ball never grows again. */
  lemma {:induction false} BallStable(valid: set<Coord>, units: map<Coord, Unit>, start: Coord, k: nat, m: nat)
    requires k >= 1 && Ball(valid, units, start, k) == Ball(valid, units, start, k - 1)
    requires k <= m
    ensures Ball(valid, units, start, m) == Ball(valid, units, start, k)
    decreases m - k
  {
    if k < m {
      var b := Ball(valid, units, start, k);
      assert Ball(valid, units, start, k + 1) == b + Step(valid, units, b);
      assert Ball(valid, units, start, k) == b + Step(valid, units, Ball(valid, units, start, k - 1));
      BallStable(valid, units, start, k + 1, m);
    }
  }

  /** One pass of the flood fill turns ball k - 1 into ball k and its new cells into layer k. */
  lemma AdvanceLayer(valid: set<Coord>, units: map<Coord, Unit>, start: Coord, k: nat, previous: set<Coord>, visited: set<Coord>)
    requires k >= 1
    requires previous == Ball(valid, units, start, k - 1)
    requires visited == previous + Step(valid, units, Layer(valid, units, start, k - 1))
    ensures visited == Ball(valid, units, start, k)
    ensures visited - previous == Layer(valid, units, start, k)
    ensures start in previous
  {
    BallGrows(valid, units, start, 0, k - 1);
    LayerStep(valid, units, start, k - 1);
  }

  /** An empty layer k means no later ball is larger than ball k. */
  lemma StopEarly(valid: set<Coord>, units: map<Coord, Unit>, start: Coord, k: nat, m: nat)
    requires 1 <= k <= m
    requires Layer(valid, units, start, k) == {}
    ensures Ball(valid, units, start, m) == Ball(valid, units, start, k)
  {
    var older, b := Ball(valid, units, start, k - 1), Ball(valid, units, start, k);
    BallGrows(valid, units, start, k - 1, k);
    assert b - older == {};
    assert older <= b;
    assert b == older;
    BallStable(valid, units, start, k, m);
  }

  /** Every cell of the ball other than start is free. */
  lemma {:induction false} BallFree(valid: set<Coord>, units: map<Coord, Unit>, start: Coord, k: nat, c: Coord)
    requires c in Ball(valid, units, start, k) && c != start
    ensures Free(valid, units, c)
    decreases k
  {
    if k > 0 {
      var b := Ball(valid, units, start, k - 1);
      if c in b {
        BallFree(valid, units, start, k - 1, c);
      }
    }
  }

  /** Every cell of the ball lies within k of start. */
  lemma {:induction false} BallWithin(valid: set<Coord>, units: map<Coord, Unit>, start: Coord, k: nat, c: Coord)
    requires c in Ball(valid, units, start, k)
    ensures Distance(start, c) <= k
    decreases k
  {
    if k > 0 {
      var b := Ball(valid, units, start, k - 1);
      if c in b {
        BallWithin(valid, units, start, k - 1, c);
      } else {
        var p := StepPredecessor(valid, units, b, c);
        BallWithin(valid, units, start, k - 1, p);
        DistanceTriangle(start, p, c);
      }
    }
  }

  /** A cell one step out has a neighbour, at distance 1, in the set it was reached from. */
  lemma StepPredecessor(valid: set<Coord>, units: map<Coord, Unit>, b: set<Coord>, c: Coord) returns (p: Coord)
    requires c in Step(valid, units, b)
    ensures p in b && Distance(p, c) == 1
  {
    p :| p in b && c in Neighbors(p);
    NeighborDistance(p, c);
  }

  /** The cells of a sequence, collected from the front. */
  ghost function Elements(s: seq<Coord>): set<Coord>
  {
    if |s| == 0 then {} else Elements(s[..|s| - 1]) + {s[|s| - 1]}
  }

  lemma {:induction false} ElementsMembers(s: seq<Coord>)
    ensures forall x :: x in Elements(s) <==> x in s
  {
    if |s| > 0 {
      ElementsMembers(s[..|s| - 1]);
      assert s == s[..|s| - 1] + [s[|s| - 1]];
    }
  }

  /** The free cells of a sequence, collected from the front. */
  ghost function FreeAmong(valid: set<Coord>, units: map<Coord, Unit>, s: seq<Coord>): set<Coord>
  {
    if |s| == 0 then {}
    else FreeAmong(valid, units, s[..|s| - 1]) + (if Free(valid, units, s[|s| - 1]) then {s[|s| - 1]} else {})
  }

  lemma {:induction false} FreeAmongMembers(valid: set<Coord>, units: map<Coord, Unit>, s: seq<Coord>)
    ensures forall x :: x in FreeAmong(valid, units, s) <==> x in s && Free(valid, units, x)
  {
    if |s| > 0 {
      FreeAmongMembers(valid, units, s[..|s| - 1]);
      assert s == s[..|s| - 1] + [s[|s| - 1]];
    }
  }

  /** The one-cell step is the free neighbours of that cell. */
  lemma StepSingle(valid: set<Coord>, units: map<Coord, Unit>, c: Coord)
    ensures Step(valid, units, {c}) == FreeAmong(valid, units, Neighbors(c))
  {
    FreeAmongMembers(valid, units, Neighbors(c));
  }

  /**
    The inner loop of the flood fill for one frontier cell: each free neighbour
    not yet visited is visited, appended to the next frontier and recorded as
    reachable.
  */
  method VisitNeighbors(cell: Coord, valid: set<Coord>, units: map<Coord, Unit>,
                        visited0: set<Coord>, next0: seq<Coord>, reachable0: set<Coord>)
    returns (visited: set<Coord>, next: seq<Coord>, reachable: set<Coord>)
    ensures visited == visited0 + FreeAmong(valid, units, Neighbors(cell))
    ensures Elements(next) == Elements(next0) + (visited - visited0)
    ensures reachable == reachable0 + (visited - visited0)
  {
    visited, next, reachable := visited0, next0, reachable0;
    var ns := Neighbors(cell);
    var j := 0;
    while j < 6
      invariant 0 <= j <= 6
      invariant visited == visited0 + FreeAmong(valid, units, ns[..j])
      invariant Elements(next) == Elements(next0) + (visited - visited0)
      invariant reachable == reachable0 + (visited - visited0)
    {
      var n := ns[j];
      assert (ns[..j + 1])[..j] == ns[..j];
      if n !in visited && n in valid && n !in units {
        assert (next + [n])[..|next|] == next;
        visited := visited + {n};
        next := next + [n];
        reachable := reachable + {n};
      }
      j := j + 1;
    }
    assert ns[..6] == ns;
  }

  lemma ExpandOne(valid: set<Coord>, units: map<Coord, Unit>, frontier: seq<Coord>, i: int,
                  visited0: set<Coord>, before: set<Coord>, after: set<Coord>)
    requires 0 <= i < |frontier|
    requires before == visited0 + Step(valid, units, Elements(frontier[..i]))
    requires after == before + FreeAmong(valid, units, Neighbors(frontier[i]))
    ensures after == visited0 + Step(valid, units, Elements(frontier[..i + 1]))
    ensures visited0 <= before <= after
  {
    StepSingle(valid, units, frontier[i]);
    assert (frontier[..i + 1])[..i] == frontier[..i];
    StepUnion(valid, units, Elements(frontier[..i]), {frontier[i]});
  }

  /** One layer of the flood fill: the neighbours of every frontier cell are visited in turn. */
  method ExpandFrontier(frontier: seq<Coord>, valid: set<Coord>, units: map<Coord, Unit>,
                        visited0: set<Coord>, reachable0: set<Coord>)
    returns (next: seq<Coord>, visited: set<Coord>, reachable: set<Coord>)
    ensures visited == visited0 + Step(valid, units, Elements(frontier))
    ensures Elements(next) == visited - visited0
    ensures reachable == reachable0 + (visited - visited0)
  {
    next, visited, reachable := [], visited0, reachable0;
    var i := 0;
    while i < |frontier|
      invariant 0 <= i <= |frontier|
      invariant visited == visited0 + Step(valid, units, Elements(frontier[..i]))
      invariant Elements(next) == visited - visited0
      invariant reachable == reachable0 + (visited - visited0)
    {
      ghost var before := visited;
      visited, next, reachable := VisitNeighbors(frontier[i], valid, units, visited, next, reachable);
      ExpandOne(valid, units, frontier, i, visited0, before, visited);
      i := i + 1;
    }
    assert frontier[..i] == frontier;
  }

  /**
    All cells the unit can move to (`possibleMoves`): nothing when it cannot
    move; otherwise the free cells reachable in at most movementRange steps
    over free cells, never its own cell. The layered loop stops early once a
    layer comes out empty.
  */
  method PossibleMoves(u: Unit, start: Coord, valid: set<Coord>, units: map<Coord, Unit>) returns (reachable: set<Coord>)
    requires CanMove(u) ==> u.stats.movementRange >= 1
    ensures !CanMove(u) ==> reachable == {}
    ensures CanMove(u) ==> reachable == Ball(valid, units, start, u.stats.movementRange) - {start}
  {
    if !CanMove(u) {
      return {};
    }
    var range := u.stats.movementRange;
    reachable := {};
    var frontier := [start];
    var visited := {start};
    var step := 1;
    while step <= range
      invariant 1 <= step <= range + 1
      invariant visited == Ball(valid, units, start, step - 1)
      invariant Elements(frontier) == Layer(valid, units, start, step - 1)
      invariant reachable == visited - {start}
    {
      ghost var previous := visited;
      frontier, visited, reachable := ExpandFrontier(frontier, valid, units, visited, reachable);
      AdvanceLayer(valid, units, start, step, previous, visited);
      if |frontier| == 0 {
        StopEarly(valid, units, start, step, range);
        return;
      }
      step := step + 1;
    }
  }

  /** Every cell the unit can move to is free and within its movement range. */
  lemma PossibleMovesBounded(valid: set<Coord>, units: map<Coord, Unit>, start: Coord, range: nat, c: Coord)
    requires c in Ball(valid, units, start, range) - {start}
    ensures Free(valid, units, c) && 1 <= Distance(start, c) <= range
  {
    BallFree(valid, units, start, range, c);
    BallWithin(valid, units, start, range, c);
    DistanceZeroIffEqual(start, c);
  }

  /**
    A walk from p[0]: every later cell is a neighbour of the one before it and
    is free. This is the plain reading of "reachable by moving step by step".
  */
  ghost predicate IsWalk(valid: set<Coord>, units: map<Coord, Unit>, p: seq<Coord>)
  {
    |p| >= 1 &&
    forall i, j :: 0 <= i < j < |p| && j == i + 1 ==> p[j] in Neighbors(p[i]) && Free(valid, units, p[j])
  }

  /** The end of a walk of at most k steps lies in ball k. */
  lemma {:induction false} WalkInBall(valid: set<Coord>, units: map<Coord, Unit>, start: Coord, k: nat, p: seq<Coord>)
    requires IsWalk(valid, units, p) && p[0] == start && |p| <= k + 1
    ensures p[|p| - 1] in Ball(valid, units, start, k)
    decreases |p|
  {
    if |p| == 1 {
      BallGrows(valid, units, start, 0, k);
    } else {
      var q := p[..|p| - 1];
      assert IsWalk(valid, units, q);
      WalkInBall(valid, units, start, k - 1, q);
      var b := Ball(valid, units, start, k - 1);
      assert p[|p| - 1] in Step(valid, units, b);
    }
  }

  /** A walk extended by a free neighbour of its last cell is still a walk. */
  lemma WalkExtend(valid: set<Coord>, units: map<Coord, Unit>, q: seq<Coord>, c: Coord) returns (p: seq<Coord>)
    requires IsWalk(valid, units, q) && c in Neighbors(q[|q| - 1]) && Free(valid, units, c)
    ensures IsWalk(valid, units, p) && p[0] == q[0] && |p| == |q| + 1 && p[|p| - 1] == c
  {
    p := q + [c];
    forall i, j | 0 <= i < j < |p| && j == i + 1
      ensures p[j] in Neighbors(p[i]) && Free(valid, units, p[j])
    {
      if j < |q| {
        assert p[i] == q[i] && p[j] == q[j];
      }
    }
  }

  /** A cell one step out is a free neighbour of some cell of the set it was reached from. */
  lemma StepSource(valid: set<Coord>, units: map<Coord, Unit>, b: set<Coord>, c: Coord) returns (prev: Coord)
    requires c in Step(valid, units, b)
    ensures prev in b && c in Neighbors(prev) && Free(valid, units, c)
  {
    prev :| prev in b && c in Neighbors(prev);
  }

  /** Every cell of ball k ends some walk of at most k steps from start. */
  lemma {:induction false} BallHasWalk(valid: set<Coord>, units: map<Coord, Unit>, start: Coord, k: nat, c: Coord) returns (p: seq<Coord>)
    requires c in Ball(valid, units, start, k)
    ensures IsWalk(valid, units, p) && p[0] == start && |p| <= k + 1 && p[|p| - 1] == c
    decreases k, 2
  {
    if k == 0 {
      p := [start];
    } else {
      p := BallHasWalkAfter(valid, units, start, k, c);
    }
  }

  /** A cell of ball k, for k at least 1, ends a walk of at most k steps. */
  lemma {:induction false} BallHasWalkAfter(valid: set<Coord>, units: map<Coord, Unit>, start: Coord, k: nat, c: Coord) returns (p: seq<Coord>)
    requires k >= 1 && c in Ball(valid, units, start, k)
    ensures IsWalk(valid, units, p) && p[0] == start && |p| <= k + 1 && p[|p| - 1] == c
    decreases k, 1
  {
    if c in Ball(valid, units, start, k - 1) {
      p := BallHasWalk(valid, units, start, k - 1, c);
    } else {
      BallOuter(valid, units, start, k, c);
      p := WalkOneMore(valid, units, start, k, c);
    }
  }

  /** A cell one step beyond ball k - 1 ends a walk of at most k steps. */
  lemma {:induction false} WalkOneMore(valid: set<Coord>, units: map<Coord, Unit>, start: Coord, k: nat, c: Coord) returns (p: seq<Coord>)
    requires k >= 1 && c in Step(valid, units, Ball(valid, units, start, k - 1))
    ensures IsWalk(valid, units, p) && p[0] == start && |p| <= k + 1 && p[|p| - 1] == c
    decreases k, 0
  {
    var prev := StepSource(valid, units, Ball(valid, units, start, k - 1), c);
    var q := BallHasWalk(valid, units, start, k - 1, prev);
    p := WalkExtend(valid, units, q, c);
  }

  /** A cell of ball k that is not in ball k - 1 was reached in the last step. */
  lemma BallOuter(valid: set<Coord>, units: map<Coord, Unit>, start: Coord, k: nat, c: Coord)
    requires k >= 1 && c in Ball(valid, units, start, k) && c !in Ball(valid, units, start, k - 1)
    ensures c in Step(valid, units, Ball(valid, units, start, k - 1))
  {
  }

  /**
    The flood fill's ball is exactly the set of cells at the end of a walk of
    at most k steps over free cells.
  */
  lemma BallIsWalkReach(valid: set<Coord>, units: map<Coord, Unit>, start: Coord, k: nat, c: Coord)
    ensures c in Ball(valid, units, start, k) <==>
      exists p :: IsWalk(valid, units, p) && p[0] == start && |p| <= k + 1 && p[|p| - 1] == c
  {
    if c in Ball(valid, units, start, k) {
      var p := BallHasWalk(valid, units, start, k, c);
    }
    if exists p :: IsWalk(valid, units, p) && p[0] == start && |p| <= k + 1 && p[|p| - 1] == c {
      var p :| IsWalk(valid, units, p) && p[0] == start && |p| <= k + 1 && p[|p| - 1] == c;
      WalkInBall(valid, units, start, k, p);
    }
  }

  // Targeting.

  /**
    The cells a unit standing at `at` may attack: nothing when it cannot
    attack; otherwise every other cell within its attack range holding a
    living unit of the other side.
  */
  function Targets(u: Unit, at: Coord, units: map<Coord, Unit>): set<Coord>
  {
    if !CanAttack(u) then {}
    else set c | c in units && 1 <= Distance(at, c) <= u.stats.attackRange
                 && units[c].owner != u.owner && IsAlive(units[c])
  }

  /** `possibleTargets`: the ring of cells within range, filtered to living enemy units. */
  method PossibleTargets(u: Unit, at: Coord, units: map<Coord, Unit>) returns (targets: set<Coord>)
    requires CanAttack(u) ==> u.stats.attackRange >= 0
    ensures targets == Targets(u, at, units)
    ensures forall c :: c in targets ==> c in units && c != at && units[c].owner != u.owner && IsAlive(units[c])
  {
    if !CanAttack(u) {
      return {};
    }
    var within := NeighborsWithin(at, u.stats.attackRange);
    targets := set c | c in within && c in units && units[c].owner != u.owner && IsAlive(units[c]);
    forall c | c in targets
      ensures c != at
    {
      DistanceZeroIffEqual(at, c);
    }
  }
}
