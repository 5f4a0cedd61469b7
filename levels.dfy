/**
  Level configurations: the five catalogue levels, the generator that builds
  balanced, economic, military and defensive levels from a difficulty and a
  map size, the suggested stat table, the integer part of the balance
  report, and `applyLevel`, which resets a board to a configuration.
*/
module Levels {
  import opened Hex
  import opened Units
  import opened Board
  import opened Folds
  import opened Options

  /** One starting unit of a configuration: its kind and its cell. */
  datatype Placement = Placement(kind: UnitKind, position: Coord)

  /** `LevelConfig`. */
  datatype LevelConfig = LevelConfig(
    name: string,
    mapRadius: int,
    player1StartGold: int,
    player2StartGold: int,
    player1StartUnits: seq<Placement>,
    player2StartUnits: seq<Placement>,
    neutralBuildings: seq<Placement>,
    description: string)

  /** `LevelConfig.init`: one starting gold for both sides and no neutral buildings. */
  function MakeLevel(name: string, radius: int, startGold: int, p1: seq<Placement>, p2: seq<Placement>,
                     description: string): LevelConfig
  {
    LevelConfig(name, radius, startGold, startGold, p1, p2, [], description)
  }

  /** Both sides start with the same gold. */
  predicate FairGold(c: LevelConfig)
  {
    c.player1StartGold == c.player2StartGold
  }

  /** Every configuration built by the initialiser gives both sides the same gold. */
  lemma MakeLevelIsFair(name: string, radius: int, startGold: int, p1: seq<Placement>, p2: seq<Placement>,
                        description: string)
    ensures FairGold(MakeLevel(name, radius, startGold, p1, p2, description))
    ensures MakeLevel(name, radius, startGold, p1, p2, description).player1StartGold == startGold
  {
  }

  // The catalogue.

  /** `standardLevels`. */
  function StandardLevels(): seq<LevelConfig>
  {
    [
      MakeLevel("Tutorial", 3, 50,
        [Placement(Scout, Coord(0, 2)), Placement(House, Coord(1, 2))],
        [Placement(Scout, Coord(0, -2)), Placement(House, Coord(-1, -2))],
        "Learn the basics with a small map and simple units"),
      MakeLevel("Balanced Start", 4, 100,
        [Placement(Scout, Coord(-1, 3)), Placement(House, Coord(0, 3)), Placement(Scout, Coord(1, 3))],
        [Placement(Scout, Coord(-1, -3)), Placement(House, Coord(0, -3)), Placement(Scout, Coord(1, -3))],
        "Standard balanced game with equal starting forces"),
      MakeLevel("Economic Focus", 5, 150,
        [Placement(House, Coord(-1, 4)), Placement(House, Coord(0, 4)), Placement(House, Coord(1, 4)),
         Placement(Warrior, Coord(0, 3))],
        [Placement(House, Coord(-1, -4)), Placement(House, Coord(0, -4)), Placement(House, Coord(1, -4)),
         Placement(Warrior, Coord(0, -3))],
        "Focus on economic development with multiple starting houses"),
      MakeLevel("Fortress Defense", 4, 80,
        [Placement(Watchtower, Coord(0, 3)), Placement(Warrior, Coord(-1, 3)), Placement(Warrior, Coord(1, 3)),
         Placement(House, Coord(0, 2))],
        [Placement(Watchtower, Coord(0, -3)), Placement(Warrior, Coord(-1, -3)), Placement(Warrior, Coord(1, -3)),
         Placement(House, Coord(0, -2))],
        "Defensive gameplay with starting towers and warriors"),
      MakeLevel("Large Battle", 6, 200,
        [Placement(Scout, Coord(-2, 5)), Placement(Warrior, Coord(-1, 5)), Placement(House, Coord(0, 5)),
         Placement(Warrior, Coord(1, 5)), Placement(Scout, Coord(2, 5)), Placement(Watchtower, Coord(0, 4))],
        [Placement(Scout, Coord(-2, -5)), Placement(Warrior, Coord(-1, -5)), Placement(House, Coord(0, -5)),
         Placement(Warrior, Coord(1, -5)), Placement(Scout, Coord(2, -5)), Placement(Watchtower, Coord(0, -4))],
        "Large-scale warfare on an expanded battlefield")
    ]
  }

  /** Every placement of the list lies on the hexagonal map of the given radius. */
  predicate OnMap(ps: seq<Placement>, radius: int)
  {
    forall i :: 0 <= i < |ps| ==> Distance(Origin, ps[i].position) <= radius
  }

  /** The cells of a placement list that lie outside the hexagonal map of the given radius. */
  function OffMap(ps: seq<Placement>, radius: int): (cells: set<Coord>)
    ensures cells == {} <==> OnMap(ps, radius)
  {
    var cells := set i | 0 <= i < |ps| && Distance(Origin, ps[i].position) > radius :: ps[i].position;
    assert !OnMap(ps, radius) ==> exists i :: 0 <= i < |ps| && ps[i].position in cells;
    cells
  }

  /** The cells a placement list occupies. */
  function Cells(ps: seq<Placement>): (cells: set<Coord>)
    ensures forall i :: 0 <= i < |ps| ==> ps[i].position in cells
    ensures forall p :: p in cells ==> exists i :: 0 <= i < |ps| && ps[i].position == p
  {
    set i | 0 <= i < |ps| :: ps[i].position
  }

  /** Both sides list the same kinds in the same order. */
  predicate SameKinds(c: LevelConfig)
  {
    |c.player1StartUnits| == |c.player2StartUnits| &&
    forall j :: 0 <= j < |c.player1StartUnits| ==> c.player1StartUnits[j].kind == c.player2StartUnits[j].kind
  }

  /** The catalogue holds five levels, each fair in gold and with both sides fielding the same kinds. */
  lemma StandardLevelsAreFair()
    ensures |StandardLevels()| == 5
    ensures forall i :: 0 <= i < 5 ==> FairGold(StandardLevels()[i]) && SameKinds(StandardLevels()[i])
    ensures forall i :: 0 <= i < 5 ==> StandardLevels()[i].neutralBuildings == []
  {
  }

  /** The first four catalogue levels place every unit on their map. */
  lemma StandardLevelsOnMap(i: int)
    requires 0 <= i < 4
    ensures OnMap(StandardLevels()[i].player1StartUnits, StandardLevels()[i].mapRadius)
    ensures OnMap(StandardLevels()[i].player2StartUnits, StandardLevels()[i].mapRadius)
  {
  }

  /**
    Large Battle, on a map of radius 6, places player 1's scout at (2, 5) and
    player 2's scout at (-2, -5): both cells are at distance 7, off the map,
    and no other unit of that level is.
  */
  lemma LargeBattleOffMap()
    ensures StandardLevels()[4].name == "Large Battle" && StandardLevels()[4].mapRadius == 6
    ensures OffMap(StandardLevels()[4].player1StartUnits, 6) == {Coord(2, 5)}
    ensures OffMap(StandardLevels()[4].player2StartUnits, 6) == {Coord(-2, -5)}
    ensures Distance(Origin, Coord(2, 5)) == 7 && Distance(Origin, Coord(-2, -5)) == 7
  {
    var p1 := StandardLevels()[4].player1StartUnits;
    var p2 := StandardLevels()[4].player2StartUnits;
    assert p1[4].position == Coord(2, 5);
    assert p2[0].position == Coord(-2, -5);
  }

  // The generator's input tables.

  datatype Difficulty = Easy | Normal | Hard

  datatype GameStyle = Balanced | Economic | Military | Defensive

  datatype MapSize = Small | Medium | Large

  /** `Difficulty.goldMultiplier`, in hundredths. */
  function GoldMultiplierPercent(d: Difficulty): int
  {
    match d
    case Easy => 150
    case Normal => 100
    case Hard => 70
  }

  /**
    `Int(100 * goldMultiplier)`. The floating-point product is 150, 100 and
    (rounded to the nearest double) 70 exactly, so the truncation is exact.
  */
  function BaseGold(d: Difficulty): int
  {
    100 * GoldMultiplierPercent(d) / 100
  }

  /** `Difficulty.unitCount`. */
  function UnitCount(d: Difficulty): int
  {
    match d
    case Easy => 2
    case Normal => 3
    case Hard => 4
  }

  /** `MapSize.radius`. */
  function Radius(s: MapSize): int
  {
    match s
    case Small => 3
    case Medium => 4
    case Large => 6
  }

  /** Harder levels give less gold and more units; larger maps have larger radii. */
  lemma TablesOrdered()
    ensures BaseGold(Easy) == 150 && BaseGold(Normal) == 100 && BaseGold(Hard) == 70
    ensures BaseGold(Easy) > BaseGold(Normal) > BaseGold(Hard) > 0
    ensures 2 <= UnitCount(Easy) < UnitCount(Normal) < UnitCount(Hard) <= 4
    ensures 3 <= Radius(Small) < Radius(Medium) < Radius(Large)
  {
  }

  // Formations: the specification of the generators' append loops.

  /** n units of the given kinds, the i-th in column firstColumn + i on row row(i). */
  function Formation(kinds: seq<UnitKind>, n: nat, firstColumn: int, row: int -> int): (ps: seq<Placement>)
    requires n <= |kinds|
    ensures |ps| == n
    ensures forall i :: 0 <= i < n ==> ps[i] == Placement(kinds[i], Coord(firstColumn + i, row(i)))
  {
    seq(n, i requires 0 <= i < n => Placement(kinds[i], Coord(firstColumn + i, row(i))))
  }

  /** One more loop iteration appends the next unit of the formation. */
  lemma FormationGrows(kinds: seq<UnitKind>, n: nat, firstColumn: int, row: int -> int)
    requires n < |kinds|
    ensures Formation(kinds, n + 1, firstColumn, row) ==
      Formation(kinds, n, firstColumn, row) + [Placement(kinds[n], Coord(firstColumn + n, row(n)))]
  {
    var longer := Formation(kinds, n + 1, firstColumn, row);
    var grown := Formation(kinds, n, firstColumn, row) + [Placement(kinds[n], Coord(firstColumn + n, row(n)))];
    assert |longer| == |grown|;
    forall i | 0 <= i < n + 1
      ensures longer[i] == grown[i]
    {
      if i < n {
        assert grown[i] == Formation(kinds, n, firstColumn, row)[i];
      }
    }
  }

  /** The same row for every unit. */
  function Flat(r: int): int -> int
  {
    _ => r
  }

  /** A placement seen from the other side: (q, r) becomes (q, -r). */
  function Mirror(p: Placement): Placement
  {
    p.(position := Coord(p.position.q, -p.position.r))
  }

  /** Every placement mirrored, in the same order. */
  function MirrorAll(ps: seq<Placement>): (ms: seq<Placement>)
    ensures |ms| == |ps|
    ensures forall i :: 0 <= i < |ps| ==> ms[i] == Mirror(ps[i])
  {
    seq(|ps|, i requires 0 <= i < |ps| => Mirror(ps[i]))
  }

  /** Mirroring is applied placement by placement. */
  lemma MirrorAllAppend(ps: seq<Placement>, qs: seq<Placement>)
    ensures MirrorAll(ps + qs) == MirrorAll(ps) + MirrorAll(qs)
  {
    var l := MirrorAll(ps + qs);
    var r := MirrorAll(ps) + MirrorAll(qs);
    assert |l| == |r|;
    forall i | 0 <= i < |l|
      ensures l[i] == r[i]
    {
      if i < |ps| {
        assert (ps + qs)[i] == ps[i];
      } else {
        assert (ps + qs)[i] == qs[i - |ps|];
      }
    }
  }

  function BalancedKinds(): seq<UnitKind> { [Scout, Warrior, Scout] }

  function MilitaryKinds(): seq<UnitKind> { [Warrior, Knight, Warrior, Scout, Scout] }

  function DefensiveKinds(): seq<UnitKind> { [Warrior, Warrior, Scout] }

  /** k houses. */
  function Houses(k: nat): (ks: seq<UnitKind>)
    ensures |ks| == k && forall i :: 0 <= i < k ==> ks[i] == House
  {
    seq(k, _ => House)
  }

  /** The military formation's rows: one row before the start row for even units, two for odd ones. */
  function MilitaryRows(radius: int): int -> int
  {
    i => radius - 1 + (if i % 2 == 0 then -1 else -2)
  }

  /** Swift's `Int` division by 2, which truncates toward zero. */
  function HalfTowardZero(n: int): int
  {
    if n >= 0 then n / 2 else -((-n) / 2)
  }

  /** The number of houses of an economic level. */
  function EconomicHouses(unitCount: int): nat
  {
    Max(2, HalfTowardZero(unitCount))
  }

  /** The decimal digits of a natural number. */
  function NatToString(n: nat): string
    decreases n
  {
    var digit := ['0', '1', '2', '3', '4', '5', '6', '7', '8', '9'][n % 10];
    if n < 10 then [digit] else NatToString(n / 10) + [digit]
  }

  /** Swift's string interpolation of an `Int`. */
  function IntToString(n: int): string
  {
    if n < 0 then "-" + NatToString(-n) else NatToString(n)
  }

  /** Player 1's units of a balanced level: a house on the start row and up to three soldiers before it. */
  function BalancedUnits(radius: int, unitCount: int): seq<Placement>
    requires unitCount >= 0
  {
    [Placement(House, Coord(0, radius - 1))] + Formation(BalancedKinds(), Min(unitCount, 3), -1, Flat(radius - 2))
  }

  /** Player 1's units of an economic level: a row of houses and one scout before them. */
  function EconomicUnits(radius: int, unitCount: int): seq<Placement>
  {
    var k := EconomicHouses(unitCount);
    Formation(Houses(k), k, -(k / 2), Flat(radius - 1)) + [Placement(Scout, Coord(0, radius - 2))]
  }

  /** Player 1's units of a military level: a house and up to five soldiers on two staggered rows. */
  function MilitaryUnits(radius: int, unitCount: int): seq<Placement>
    requires unitCount >= 0
  {
    [Placement(House, Coord(0, radius - 1))] + Formation(MilitaryKinds(), Min(unitCount, 5), -2, MilitaryRows(radius))
  }

  /** Player 1's units of a defensive level: a watchtower, a house and up to three soldiers. */
  function DefensiveUnits(radius: int, unitCount: int): seq<Placement>
    requires unitCount >= 1
  {
    [Placement(Watchtower, Coord(0, radius - 1)), Placement(House, Coord(-1, radius - 1))] +
    Formation(DefensiveKinds(), Min(unitCount - 1, 3), -1, Flat(radius - 2))
  }

  /** The level `generateBalancedLevel` returns. */
  function BalancedLevel(radius: int, gold: int, unitCount: int): LevelConfig
    requires unitCount >= 0
  {
    var p1 := BalancedUnits(radius, unitCount);
    MakeLevel("Random Balanced (" + IntToString(radius) + ")", radius, gold, p1, MirrorAll(p1),
              "Randomly generated balanced level")
  }

  /** The level `generateEconomicLevel` returns. */
  function EconomicLevel(radius: int, gold: int, unitCount: int): LevelConfig
  {
    var p1 := EconomicUnits(radius, unitCount);
    MakeLevel("Random Economic (" + IntToString(radius) + ")", radius, gold + 50, p1, MirrorAll(p1),
              "Randomly generated economic-focused level")
  }

  /** The level `generateMilitaryLevel` returns. */
  function MilitaryLevel(radius: int, gold: int, unitCount: int): LevelConfig
    requires unitCount >= 0
  {
    var p1 := MilitaryUnits(radius, unitCount);
    MakeLevel("Random Military (" + IntToString(radius) + ")", radius, gold - 20, p1, MirrorAll(p1),
              "Randomly generated military-focused level")
  }

  /** The level `generateDefensiveLevel` returns. */
  function DefensiveLevel(radius: int, gold: int, unitCount: int): LevelConfig
    requires unitCount >= 1
  {
    var p1 := DefensiveUnits(radius, unitCount);
    MakeLevel("Random Defensive (" + IntToString(radius) + ")", radius, gold, p1, MirrorAll(p1),
              "Randomly generated defensive-focused level")
  }

  /** The level `generateRandomLevel` returns. */
  function RandomLevel(d: Difficulty, style: GameStyle, size: MapSize): LevelConfig
  {
    var radius := Radius(size);
    match style
    case Balanced => BalancedLevel(radius, BaseGold(d), UnitCount(d))
    case Economic => EconomicLevel(radius, BaseGold(d), UnitCount(d))
    case Military => MilitaryLevel(radius, BaseGold(d), UnitCount(d))
    case Defensive => DefensiveLevel(radius, BaseGold(d), UnitCount(d))
  }

  // The generators.

  /** `generateBalancedLevel`; a negative unit count traps in the source's range. */
  method GenerateBalancedLevel(radius: int, gold: int, unitCount: int) returns (c: LevelConfig)
    requires unitCount >= 0
    ensures c == BalancedLevel(radius, gold, unitCount)
  {
    var p1StartRow := radius - 1;
    var p2StartRow := -(radius - 1);
    var p1Units := [Placement(House, Coord(0, p1StartRow))];
    var p2Units := [Placement(House, Coord(0, p2StartRow))];
    var unitTypes := BalancedKinds();
    var n := Min(unitCount, |unitTypes|);
    for i := 0 to n
      invariant p1Units == [Placement(House, Coord(0, radius - 1))] + Formation(unitTypes, i, -1, Flat(radius - 2))
      invariant p2Units == MirrorAll(p1Units)
    {
      var offset := i - |unitTypes| / 2;
      FormationGrows(unitTypes, i, -1, Flat(radius - 2));
      MirrorAllAppend(p1Units, [Placement(unitTypes[i], Coord(offset, p1StartRow - 1))]);
      p1Units := p1Units + [Placement(unitTypes[i], Coord(offset, p1StartRow - 1))];
      p2Units := p2Units + [Placement(unitTypes[i], Coord(offset, p2StartRow + 1))];
    }
    c := MakeLevel("Random Balanced (" + IntToString(radius) + ")", radius, gold, p1Units, p2Units,
                   "Randomly generated balanced level");
  }

  /** `generateEconomicLevel`. */
  method GenerateEconomicLevel(radius: int, gold: int, unitCount: int) returns (c: LevelConfig)
    ensures c == EconomicLevel(radius, gold, unitCount)
  {
    var p1StartRow := radius - 1;
    var p2StartRow := -(radius - 1);
    var p1Units: seq<Placement> := [];
    var p2Units: seq<Placement> := [];
    var houseCount := Max(2, HalfTowardZero(unitCount));
    for i := 0 to houseCount
      invariant p1Units == Formation(Houses(houseCount), i, -(houseCount / 2), Flat(radius - 1))
      invariant p2Units == MirrorAll(p1Units)
    {
      var offset := i - houseCount / 2;
      FormationGrows(Houses(houseCount), i, -(houseCount / 2), Flat(radius - 1));
      MirrorAllAppend(p1Units, [Placement(House, Coord(offset, p1StartRow))]);
      p1Units := p1Units + [Placement(House, Coord(offset, p1StartRow))];
      p2Units := p2Units + [Placement(House, Coord(offset, p2StartRow))];
    }
    MirrorAllAppend(p1Units, [Placement(Scout, Coord(0, p1StartRow - 1))]);
    p1Units := p1Units + [Placement(Scout, Coord(0, p1StartRow - 1))];
    p2Units := p2Units + [Placement(Scout, Coord(0, p2StartRow + 1))];
    c := MakeLevel("Random Economic (" + IntToString(radius) + ")", radius, gold + 50, p1Units, p2Units,
                   "Randomly generated economic-focused level");
  }

  /** `generateMilitaryLevel`; a negative unit count traps in the source's range. */
  method GenerateMilitaryLevel(radius: int, gold: int, unitCount: int) returns (c: LevelConfig)
    requires unitCount >= 0
    ensures c == MilitaryLevel(radius, gold, unitCount)
  {
    var p1StartRow := radius - 1;
    var p2StartRow := -(radius - 1);
    var p1Units := [Placement(House, Coord(0, p1StartRow))];
    var p2Units := [Placement(House, Coord(0, p2StartRow))];
    var militaryUnits := MilitaryKinds();
    var n := Min(unitCount, |militaryUnits|);
    for i := 0 to n
      invariant p1Units == [Placement(House, Coord(0, radius - 1))] + Formation(militaryUnits, i, -2, MilitaryRows(radius))
      invariant p2Units == MirrorAll(p1Units)
    {
      var offset := i - |militaryUnits| / 2;
      var rowOffset := if i % 2 == 0 then -1 else -2;
      FormationGrows(militaryUnits, i, -2, MilitaryRows(radius));
      MirrorAllAppend(p1Units, [Placement(militaryUnits[i], Coord(offset, p1StartRow + rowOffset))]);
      p1Units := p1Units + [Placement(militaryUnits[i], Coord(offset, p1StartRow + rowOffset))];
      p2Units := p2Units + [Placement(militaryUnits[i], Coord(offset, p2StartRow - rowOffset))];
    }
    c := MakeLevel("Random Military (" + IntToString(radius) + ")", radius, gold - 20, p1Units, p2Units,
                   "Randomly generated military-focused level");
  }

  /** `generateDefensiveLevel`; a unit count below 1 traps in the source's range. */
  method GenerateDefensiveLevel(radius: int, gold: int, unitCount: int) returns (c: LevelConfig)
    requires unitCount >= 1
    ensures c == DefensiveLevel(radius, gold, unitCount)
  {
    var p1StartRow := radius - 1;
    var p2StartRow := -(radius - 1);
    var p1Units := [Placement(Watchtower, Coord(0, p1StartRow))];
    var p2Units := [Placement(Watchtower, Coord(0, p2StartRow))];
    p1Units := p1Units + [Placement(House, Coord(-1, p1StartRow))];
    p2Units := p2Units + [Placement(House, Coord(-1, p2StartRow))];
    var head := p1Units;
    var defensiveUnits := DefensiveKinds();
    var n := Min(unitCount - 1, |defensiveUnits|);
    for i := 0 to n
      invariant p1Units == head + Formation(defensiveUnits, i, -1, Flat(radius - 2))
      invariant p2Units == MirrorAll(p1Units)
    {
      var offset := i - 1;
      FormationGrows(defensiveUnits, i, -1, Flat(radius - 2));
      MirrorAllAppend(p1Units, [Placement(defensiveUnits[i], Coord(offset, p1StartRow - 1))]);
      p1Units := p1Units + [Placement(defensiveUnits[i], Coord(offset, p1StartRow - 1))];
      p2Units := p2Units + [Placement(defensiveUnits[i], Coord(offset, p2StartRow + 1))];
    }
    c := MakeLevel("Random Defensive (" + IntToString(radius) + ")", radius, gold, p1Units, p2Units,
                   "Randomly generated defensive-focused level");
  }

  /** `generateRandomLevel`: the tables pick the radius, gold and unit count, the style picks the generator. */
  method GenerateRandomLevel(d: Difficulty, style: GameStyle, size: MapSize) returns (c: LevelConfig)
    ensures c == RandomLevel(d, style, size)
  {
    var radius := Radius(size);
    var baseGold := BaseGold(d);
    var unitCount := UnitCount(d);
    match style {
      case Balanced => c := GenerateBalancedLevel(radius, baseGold, unitCount);
      case Economic => c := GenerateEconomicLevel(radius, baseGold, unitCount);
      case Military => c := GenerateMilitaryLevel(radius, baseGold, unitCount);
      case Defensive => c := GenerateDefensiveLevel(radius, baseGold, unitCount);
    }
  }

  // What the generator promises.

  /** The extra starting gold of a style: +50 for economic, -20 for military. */
  function StyleBonus(style: GameStyle): int
  {
    match style
    case Economic => 50
    case Military => -20
    case _ => 0
  }

  /** How many units each side of a generated level starts with. */
  function StartCount(style: GameStyle, unitCount: int): int
  {
    match style
    case Balanced => 1 + Min(unitCount, 3)
    case Economic => EconomicHouses(unitCount) + 1
    case Military => 1 + Min(unitCount, 5)
    case Defensive => 2 + Min(unitCount - 1, 3)
  }

  /**
    A generated level has the table's radius, the same gold for both sides
    (the base gold of the difficulty plus the style's bonus) and no neutral
    buildings.
  */
  lemma RandomLevelGold(d: Difficulty, style: GameStyle, size: MapSize)
    ensures var c := RandomLevel(d, style, size);
      && c.mapRadius == Radius(size)
      && FairGold(c) && c.player1StartGold == BaseGold(d) + StyleBonus(style)
      && 50 <= c.player1StartGold <= 200
      && c.neutralBuildings == []
  {
    var c := RandomLevel(d, style, size);
    StyleLevelGold(style, c, Radius(size), BaseGold(d), UnitCount(d));
    assert 70 <= BaseGold(d) <= 150;
  }

  /** The gold, radius and neutral buildings of each generator's level. */
  lemma StyleLevelGold(style: GameStyle, c: LevelConfig, radius: int, gold: int, unitCount: int)
    requires unitCount >= 1
    requires c == match style
      case Balanced => BalancedLevel(radius, gold, unitCount)
      case Economic => EconomicLevel(radius, gold, unitCount)
      case Military => MilitaryLevel(radius, gold, unitCount)
      case Defensive => DefensiveLevel(radius, gold, unitCount)
    ensures c.mapRadius == radius && FairGold(c) && c.player1StartGold == gold + StyleBonus(style)
    ensures c.neutralBuildings == []
  {
  }

  /** A list and its mirror image field the same kinds in the same order. */
  lemma MirrorSameKinds(c: LevelConfig)
    requires c.player2StartUnits == MirrorAll(c.player1StartUnits)
    ensures SameKinds(c)
  {
  }

  /**
    A generated level gives player 1 the per-style number of starting units,
    and player 2's list is player 1's with every row negated.
  */
  lemma RandomLevelShape(d: Difficulty, style: GameStyle, size: MapSize)
    ensures var c := RandomLevel(d, style, size);
      && |c.player1StartUnits| == StartCount(style, UnitCount(d))
      && c.player2StartUnits == MirrorAll(c.player1StartUnits)
      && SameKinds(c)
  {
    var c := RandomLevel(d, style, size);
    RandomLevelUnits(d, style, size);
    assert c.player2StartUnits == MirrorAll(c.player1StartUnits);
    MirrorSameKinds(c);
  }

  /** Every placement of the list lies on a cell with a positive row. */
  predicate NorthOfCentre(ps: seq<Placement>)
  {
    forall i :: 0 <= i < |ps| ==> ps[i].position.r > 0
  }

  /** No two placements of the list share a cell. */
  predicate DistinctCells(ps: seq<Placement>)
  {
    forall i, j :: 0 <= i < j < |ps| ==> ps[i].position != ps[j].position
  }

  /** A hexagonal map of radius R contains (q, r) exactly when |q|, |r| and |q + r| are at most R. */
  lemma WithinRadius(c: Coord, radius: int)
    ensures Distance(Origin, c) <= radius <==>
      Abs(c.q) <= radius && Abs(c.r) <= radius && Abs(c.q + c.r) <= radius
  {
    BandIsDisk(c.q, c.r, radius);
  }

  /** Player 1's units of a generated level, in the level's own terms. */
  function GeneratedUnits(style: GameStyle, radius: int, unitCount: int): seq<Placement>
    requires unitCount >= 1
  {
    match style
    case Balanced => BalancedUnits(radius, unitCount)
    case Economic => EconomicUnits(radius, unitCount)
    case Military => MilitaryUnits(radius, unitCount)
    case Defensive => DefensiveUnits(radius, unitCount)
  }

  /** The generated list is the one the level carries. */
  lemma RandomLevelUnits(d: Difficulty, style: GameStyle, size: MapSize)
    ensures RandomLevel(d, style, size).player1StartUnits == GeneratedUnits(style, Radius(size), UnitCount(d))
  {
  }

  /** A list and its mirror image both lie on the map, each without a repeated cell. */
  predicate WellPlaced(ps: seq<Placement>, radius: int)
  {
    OnMap(ps, radius) && OnMap(MirrorAll(ps), radius) && DistinctCells(ps) && DistinctCells(MirrorAll(ps))
  }

  /** Each cell and its mirror image are on the map. */
  lemma PlacedOnMap(ps: seq<Placement>, radius: int)
    requires forall i :: 0 <= i < |ps| ==>
      var c := ps[i].position;
      Abs(c.q) <= radius && Abs(c.r) <= radius && Abs(c.q + c.r) <= radius && Abs(c.q - c.r) <= radius
    ensures OnMap(ps, radius) && OnMap(MirrorAll(ps), radius)
  {
    var ms := MirrorAll(ps);
    forall i | 0 <= i < |ps|
      ensures Distance(Origin, ps[i].position) <= radius
      ensures Distance(Origin, ms[i].position) <= radius
    {
      WithinRadius(ps[i].position, radius);
      WithinRadius(ms[i].position, radius);
    }
  }

  /** Mirroring keeps distinct cells distinct. */
  lemma MirrorKeepsDistinct(ps: seq<Placement>)
    requires DistinctCells(ps)
    ensures DistinctCells(MirrorAll(ps))
  {
  }

  lemma BalancedPlaced(radius: int, unitCount: int)
    requires radius >= 2 && unitCount >= 0
    ensures WellPlaced(BalancedUnits(radius, unitCount), radius)
    ensures radius >= 3 ==> NorthOfCentre(BalancedUnits(radius, unitCount))
  {
    var ps := BalancedUnits(radius, unitCount);
    PlacedOnMap(ps, radius);
    MirrorKeepsDistinct(ps);
  }

  lemma EconomicPlaced(radius: int, unitCount: int)
    requires radius >= 2 && unitCount <= 7
    ensures WellPlaced(EconomicUnits(radius, unitCount), radius)
    ensures radius >= 3 ==> NorthOfCentre(EconomicUnits(radius, unitCount))
  {
    var ps := EconomicUnits(radius, unitCount);
    assert 2 <= EconomicHouses(unitCount) <= 3;
    PlacedOnMap(ps, radius);
    MirrorKeepsDistinct(ps);
  }

  lemma MilitaryPlaced(radius: int, unitCount: int)
    requires radius >= 2 && unitCount >= 0
    ensures WellPlaced(MilitaryUnits(radius, unitCount), radius)
    ensures radius >= 4 ==> NorthOfCentre(MilitaryUnits(radius, unitCount))
  {
    var ps := MilitaryUnits(radius, unitCount);
    PlacedOnMap(ps, radius);
    MirrorKeepsDistinct(ps);
  }

  lemma DefensivePlaced(radius: int, unitCount: int)
    requires radius >= 2 && unitCount >= 1
    ensures WellPlaced(DefensiveUnits(radius, unitCount), radius)
    ensures radius >= 3 ==> NorthOfCentre(DefensiveUnits(radius, unitCount))
  {
    var ps := DefensiveUnits(radius, unitCount);
    PlacedOnMap(ps, radius);
    MirrorKeepsDistinct(ps);
  }

  /**
    For radius at least 2 and at most three houses in an economic row, every
    unit of either side is on the map and no side lists a cell twice; player
    1's cells are north of the centre from radius 3 on, except the military
    level's odd soldiers, which sit two rows in and need radius 4.
  */
  lemma GeneratedUnitsPlaced(style: GameStyle, radius: int, unitCount: int)
    requires radius >= 2 && 1 <= unitCount <= 7
    ensures WellPlaced(GeneratedUnits(style, radius, unitCount), radius)
    ensures radius >= 3 && style != Military ==> NorthOfCentre(GeneratedUnits(style, radius, unitCount))
    ensures radius >= 4 ==> NorthOfCentre(GeneratedUnits(style, radius, unitCount))
  {
    match style
    case Balanced => BalancedPlaced(radius, unitCount);
    case Economic => EconomicPlaced(radius, unitCount);
    case Military => MilitaryPlaced(radius, unitCount);
    case Defensive => DefensivePlaced(radius, unitCount);
  }

  /** Two lists with no cell in common. */
  predicate DisjointCells(ps: seq<Placement>, qs: seq<Placement>)
  {
    forall i, j :: 0 <= i < |ps| && 0 <= j < |qs| ==> ps[i].position != qs[j].position
  }

  /** A list north of the centre and its mirror image share no cell. */
  lemma NorthAndMirrorDisjoint(ps: seq<Placement>)
    requires NorthOfCentre(ps)
    ensures DisjointCells(ps, MirrorAll(ps))
  {
  }

  /**
    A generated level puts its two sides on disjoint cells, except the small
    military level.
  */
  lemma RandomLevelCollisions(d: Difficulty, style: GameStyle, size: MapSize)
    ensures var c := RandomLevel(d, style, size);
      DisjointCells(c.player1StartUnits, c.player2StartUnits) <==> !(style == Military && size == Small)
  {
    var c := RandomLevel(d, style, size);
    RandomLevelUnits(d, style, size);
    GeneratedUnitsPlaced(style, Radius(size), UnitCount(d));
    if style == Military && size == Small {
      SmallMilitaryCollision(d);
    } else {
      NorthAndMirrorDisjoint(c.player1StartUnits);
    }
  }

  /**
    In the small military level the odd soldiers of both sides land on row 0:
    player 2's knight is listed on player 1's knight's cell (-1, 0) and, with
    four units, player 2's scout on player 1's scout's cell (1, 0).
  */
  lemma SmallMilitaryCollision(d: Difficulty)
    ensures var c := RandomLevel(d, Military, Small);
      && c.player1StartUnits[2] == Placement(Knight, Coord(-1, 0))
      && c.player2StartUnits[2] == Placement(Knight, Coord(-1, 0))
      && (d == Hard ==>
            c.player1StartUnits[4] == Placement(Scout, Coord(1, 0)) &&
            c.player2StartUnits[4] == Placement(Scout, Coord(1, 0)))
  {
  }

  /** Every generated level keeps both sides' units on the map, each side on distinct cells. */
  lemma RandomLevelOnMap(d: Difficulty, style: GameStyle, size: MapSize)
    ensures var c := RandomLevel(d, style, size);
      && OnMap(c.player1StartUnits, c.mapRadius) && OnMap(c.player2StartUnits, c.mapRadius)
      && DistinctCells(c.player1StartUnits) && DistinctCells(c.player2StartUnits)
  {
    RandomLevelUnits(d, style, size);
    GeneratedUnitsPlaced(style, Radius(size), UnitCount(d));
  }

  // Unit balancing.

  /** One row of the suggested stat table. */
  datatype StatRow = StatRow(health: int, attack: int, cost: int, movement: int, range: int)

  /** `getBalancedUnitStats`. */
  function BalancedUnitStats(): map<UnitKind, StatRow>
  {
    map[
      Scout := StatRow(20, 5, 10, 3, 1),
      Warrior := StatRow(40, 10, 25, 2, 1),
      Knight := StatRow(70, 18, 50, 2, 1),
      Champion := StatRow(120, 30, 100, 2, 1),
      Watchtower := StatRow(60, 8, 40, 0, 2),
      Fortress := StatRow(120, 15, 80, 0, 3),
      House := StatRow(50, 0, 30, 0, 0)
    ]
  }

  /** A factory stat row as a table row. */
  function RowOf(st: Stats): StatRow
  {
    StatRow(st.maxHealth, st.attack, st.cost, st.movementRange, st.attackRange)
  }

  /** The suggested table covers every kind and agrees with the stats the factory assigns. */
  lemma BalancedStatsAgree(k: UnitKind)
    ensures k in BalancedUnitStats()
    ensures BalancedUnitStats()[k] == RowOf(Create(k, Player1).stats)
    ensures BalancedUnitStats()[k] == RowOf(Create(k, Player2).stats)
  {
  }

  /** The integer part of `BalanceReport`. */
  datatype BalanceReport = BalanceReport(player1UnitValue: int, player2UnitValue: int,
                                         player1Income: int, player2Income: int)

  /** The cost of the unit on a cell. */
  function CostAt(units: map<Coord, Unit>): Coord -> int
  {
    p => if p in units then units[p].stats.cost else 0
  }

  /** The summed cost of a side's living units. */
  ghost function UnitValue(units: map<Coord, Unit>, side: Side): int
  {
    SumOver(LivingUnits(units, side), CostAt(units))
  }

  /** The reduce over `getUnits` that sums the costs of a side's living units. */
  method TotalValue(units: map<Coord, Unit>, side: Side) returns (total: int)
    ensures total == UnitValue(units, side)
  {
    var living := LivingUnits(units, side);
    total := 0;
    var todo := living;
    while todo != {}
      invariant todo <= living
      invariant total == SumOver(living - todo, CostAt(units))
      decreases |todo|
    {
      var p :| p in todo;
      total := total + units[p].stats.cost;
      SumOverStep(living, todo, CostAt(units), p);
      todo := todo - {p};
    }
    assert living - todo == living;
  }

  /** `analyzeBalance`, without the floating-point ratios. */
  method AnalyzeBalance(b: GameMap) returns (report: BalanceReport)
    ensures report.player1UnitValue == UnitValue(b.units, Player1)
    ensures report.player2UnitValue == UnitValue(b.units, Player2)
    ensures report.player1Income == IncomeOf(b.units, Player1)
    ensures report.player2Income == IncomeOf(b.units, Player2)
  {
    var p1TotalValue := TotalValue(b.units, Player1);
    var p2TotalValue := TotalValue(b.units, Player2);
    var p1Income := CountUnits(b.units, House, Player1) * 10;
    var p2Income := CountUnits(b.units, House, Player2) * 10;
    report := BalanceReport(p1TotalValue, p2TotalValue, p1Income, p2Income);
  }

  /** With non-negative costs, a side's unit value is non-negative. */
  lemma UnitValueNonNegative(units: map<Coord, Unit>, side: Side)
    requires forall p :: p in units ==> units[p].stats.cost >= 0
    ensures UnitValue(units, side) >= 0
  {
    SumOverNonNegative(LivingUnits(units, side), CostAt(units));
  }

  /**
    Placing a living unit of a side on an empty cell raises that side's value
    by the unit's cost and leaves the other side's value alone.
  */
  lemma UnitValueAdd(units: map<Coord, Unit>, at: Coord, u: Unit)
    requires at !in units && IsAlive(u)
    ensures UnitValue(units[at := u], u.owner) == UnitValue(units, u.owner) + u.stats.cost
    ensures UnitValue(units[at := u], Opponent(u.owner)) == UnitValue(units, Opponent(u.owner))
  {
    var after := units[at := u];
    var side := u.owner;
    var other := Opponent(side);
    assert LivingUnits(after, side) == LivingUnits(units, side) + {at};
    assert LivingUnits(after, other) == LivingUnits(units, other);
    SumOverAgree(LivingUnits(units, side), CostAt(after), CostAt(units));
    SumOverAgree(LivingUnits(units, other), CostAt(after), CostAt(units));
    SumOverAdd(LivingUnits(units, side), CostAt(after), at);
  }

  // Applying a level.

  /** The unit map after placing a list of units for one side, later entries overwriting earlier ones. */
  function Placed(units: map<Coord, Unit>, ps: seq<Placement>, side: Side): map<Coord, Unit>
    decreases |ps|
  {
    if ps == [] then units
    else
      var last := ps[|ps| - 1];
      Placed(units, ps[..|ps| - 1], side)[last.position := Create(last.kind, side)]
  }

  /** The index of the last placement on a cell, or -1 when none is. */
  function LastAt(ps: seq<Placement>, p: Coord): (k: int)
    ensures -1 <= k < |ps|
    ensures k >= 0 ==> ps[k].position == p && forall j :: k < j < |ps| ==> ps[j].position != p
    ensures k == -1 ==> forall j :: 0 <= j < |ps| ==> ps[j].position != p
    decreases |ps|
  {
    if ps == [] then -1
    else if ps[|ps| - 1].position == p then |ps| - 1
    else LastAt(ps[..|ps| - 1], p)
  }

  /**
    After placing a list, a cell holds a fresh unit of the last placement on
    it, or what it held before when no placement names it.
  */
  lemma {:induction false} PlacedAt(units: map<Coord, Unit>, ps: seq<Placement>, side: Side, p: Coord)
    ensures var m := Placed(units, ps, side);
      var k := LastAt(ps, p);
      && (k >= 0 ==> p in m && m[p] == Create(ps[k].kind, side))
      && (k == -1 ==> (p in m <==> p in units) && (p in units ==> m[p] == units[p]))
    decreases |ps|
  {
    if ps != [] {
      PlacedAt(units, ps[..|ps| - 1], side, p);
    }
  }

  /** The unit map a level starts with: player 1's units, then player 2's. */
  function LevelUnits(c: LevelConfig): map<Coord, Unit>
  {
    Placed(Placed(map[], c.player1StartUnits, Player1), c.player2StartUnits, Player2)
  }

  /** The turn and gold fields a level starts with. */
  predicate StartsTurnOne(b: GameMap, c: LevelConfig)
    reads b
  {
    && b.player1Gold == c.player1StartGold && b.player2Gold == c.player2StartGold
    && b.currentPlayer == Player1 && b.turnPhase == Build && b.turnNumber == 1
  }

  /** One placement loop of `applyLevel`: each listed unit, created for the side, overwrites its cell. */
  method PlaceAll(b: GameMap, ps: seq<Placement>, side: Side)
    modifies b`units
    ensures b.units == Placed(old(b.units), ps, side)
  {
    ghost var start := b.units;
    for i := 0 to |ps|
      invariant b.units == Placed(start, ps[..i], side)
    {
      assert ps[..i + 1][..i] == ps[..i];
      b.units := b.units[ps[i].position := Create(ps[i].kind, side)];
    }
    assert ps[..|ps|] == ps;
  }

  /**
    `applyLevel`: empties the board, gives each side its starting gold,
    hands player 1 the Build phase of turn 1, places player 1's units and
    then player 2's, and clears the selection. The map's radius and cells
    are not touched.
  */
  method ApplyLevel(b: GameMap, config: LevelConfig)
    modifies b
    ensures b.units == LevelUnits(config)
    ensures StartsTurnOne(b, config)
    ensures b.UiCleared()
  {
    b.units := map[];
    b.player1Gold := config.player1StartGold;
    b.player2Gold := config.player2StartGold;
    b.currentPlayer := Player1;
    b.turnPhase := Build;
    b.turnNumber := 1;

    PlaceAll(b, config.player1StartUnits, Player1);
    PlaceAll(b, config.player2StartUnits, Player2);

    b.selectedUnit := None;
    b.highlightedPositions := {};
    b.gameMode := SelectUnitMode;
  }

  /**
    On a level's starting map, a cell holds player 2's last placement on it
    if there is one, else player 1's last placement on it, else nothing.
  */
  lemma LevelUnitsAt(c: LevelConfig, p: Coord)
    ensures var m := LevelUnits(c);
      var k1 := LastAt(c.player1StartUnits, p);
      var k2 := LastAt(c.player2StartUnits, p);
      && (p in m <==> k1 >= 0 || k2 >= 0)
      && (k2 >= 0 ==> m[p] == Create(c.player2StartUnits[k2].kind, Player2))
      && (k2 == -1 && k1 >= 0 ==> m[p] == Create(c.player1StartUnits[k1].kind, Player1))
  {
    PlacedAt(map[], c.player1StartUnits, Player1, p);
    PlacedAt(Placed(map[], c.player1StartUnits, Player1), c.player2StartUnits, Player2, p);
  }

  /** A list without repeated cells occupies as many cells as it has entries. */
  lemma {:induction false} DistinctCellsCount(ps: seq<Placement>)
    requires DistinctCells(ps)
    ensures |Cells(ps)| == |ps|
    decreases |ps|
  {
    if ps != [] {
      var front := ps[..|ps| - 1];
      DistinctCellsCount(front);
      assert Cells(ps) == Cells(front) + {ps[|ps| - 1].position};
      assert ps[|ps| - 1].position !in Cells(front);
    }
  }

  /**
    When neither side repeats a cell and the sides share none, each side
    starts with exactly its listed units, all alive.
  */
  lemma LevelUnitsFieldsAll(c: LevelConfig, side: Side)
    requires DistinctCells(c.player1StartUnits) && DistinctCells(c.player2StartUnits)
    requires DisjointCells(c.player1StartUnits, c.player2StartUnits)
    ensures var listed := if side == Player1 then c.player1StartUnits else c.player2StartUnits;
      LivingUnits(LevelUnits(c), side) == Cells(listed) && |LivingUnits(LevelUnits(c), side)| == |listed|
  {
    var listed := if side == Player1 then c.player1StartUnits else c.player2StartUnits;
    var m := LevelUnits(c);
    forall p | p in LivingUnits(m, side)
      ensures p in Cells(listed)
    {
      LevelUnitsAt(c, p);
    }
    forall p | p in Cells(listed)
      ensures p in LivingUnits(m, side)
    {
      LevelUnitsAt(c, p);
      var i :| 0 <= i < |listed| && listed[i].position == p;
      if side == Player1 {
        assert LastAt(c.player2StartUnits, p) == -1;
      }
    }
    DistinctCellsCount(listed);
  }

  /** Every generated level except the small military one starts each side with all its listed units. */
  lemma RandomLevelFieldsAll(d: Difficulty, style: GameStyle, size: MapSize, side: Side)
    requires !(style == Military && size == Small)
    ensures var c := RandomLevel(d, style, size);
      |LivingUnits(LevelUnits(c), side)| == StartCount(style, UnitCount(d))
  {
    var c := RandomLevel(d, style, size);
    RandomLevelOnMap(d, style, size);
    RandomLevelCollisions(d, style, size);
    RandomLevelShape(d, style, size);
    LevelUnitsFieldsAll(c, side);
  }

  /**
    When every player 1 entry of a kind is listed on one cell and player 2
    also lists that cell, player 1 starts with no unit of that kind.
  */
  lemma OverwrittenKind(c: LevelConfig, kind: UnitKind, at: Coord)
    requires forall i :: 0 <= i < |c.player1StartUnits| && c.player1StartUnits[i].kind == kind ==>
      c.player1StartUnits[i].position == at
    requires LastAt(c.player2StartUnits, at) >= 0
    ensures UnitsOfKind(LevelUnits(c), kind, Player1) == {}
  {
    forall p | p in LevelUnits(c)
      ensures !(LevelUnits(c)[p].kind == kind && LevelUnits(c)[p].owner == Player1)
    {
      LevelUnitsAt(c, p);
    }
  }

  /** The military formation's only knight stands on (-1, radius - 3), the only entry in column -1. */
  lemma MilitaryKnight(radius: int, unitCount: int)
    requires unitCount >= 2
    ensures var ps := MilitaryUnits(radius, unitCount);
      && ps[2] == Placement(Knight, Coord(-1, radius - 3))
      && forall i :: 0 <= i < |ps| && (ps[i].kind == Knight || ps[i].position.q == -1) ==> i == 2
  {
  }

  /**
    A level listing the radius-3 military formation for player 1 and its
    mirror for player 2 starts player 1 without a knight: player 2's knight
    stands on (-1, 0), where player 1's was listed.
  */
  lemma MilitaryOverwrite(c: LevelConfig, unitCount: int)
    requires unitCount >= 2
    requires c.player1StartUnits == MilitaryUnits(3, unitCount)
    requires c.player2StartUnits == MirrorAll(c.player1StartUnits)
    ensures Placement(Knight, Coord(-1, 0)) in c.player1StartUnits
    ensures Coord(-1, 0) in LevelUnits(c) && LevelUnits(c)[Coord(-1, 0)] == Create(Knight, Player2)
    ensures UnitsOfKind(LevelUnits(c), Knight, Player1) == {}
  {
    MilitaryKnight(3, unitCount);
    var p2 := c.player2StartUnits;
    assert p2[2] == Placement(Knight, Coord(-1, 0));
    assert LastAt(p2, Coord(-1, 0)) == 2;
    LevelUnitsAt(c, Coord(-1, 0));
    OverwrittenKind(c, Knight, Coord(-1, 0));
  }

  /** Applying the small military level of any difficulty leaves player 1 without its knight. */
  lemma SmallMilitaryLosesKnight(d: Difficulty)
    ensures var c := RandomLevel(d, Military, Small);
      && Placement(Knight, Coord(-1, 0)) in c.player1StartUnits
      && Coord(-1, 0) in LevelUnits(c)
      && LevelUnits(c)[Coord(-1, 0)] == Create(Knight, Player2)
      && UnitsOfKind(LevelUnits(c), Knight, Player1) == {}
  {
    MilitaryOverwrite(RandomLevel(d, Military, Small), UnitCount(d));
  }

  /** Applying Large Battle puts player 1's scout on (2, 5), outside the map of radius 6. */
  lemma LargeBattleStartsOffMap()
    ensures var c := StandardLevels()[4];
      && Coord(2, 5) in LevelUnits(c)
      && LevelUnits(c)[Coord(2, 5)] == Create(Scout, Player1)
      && Coord(-2, -5) in LevelUnits(c)
      && LevelUnits(c)[Coord(-2, -5)] == Create(Scout, Player2)
      && Distance(Origin, Coord(2, 5)) > c.mapRadius
      && Distance(Origin, Coord(-2, -5)) > c.mapRadius
  {
    var c := StandardLevels()[4];
    LargeBattleOffMap();
    LevelUnitsAt(c, Coord(2, 5));
    LevelUnitsAt(c, Coord(-2, -5));
    assert LastAt(c.player1StartUnits, Coord(2, 5)) == 4;
    assert LastAt(c.player2StartUnits, Coord(-2, -5)) == 0;
  }
}
