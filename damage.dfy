/** The damage formula and the type-effectiveness chart of the battle
    service. Arithmetic is over exact rationals (`real`): the formula is the
    service's own, without IEEE-754 rounding. */
module PokemonService {
  import opened PokemonTypes

  /** The sparse, asymmetric effectiveness chart, row = attacking type,
      column = defending type. It keeps the source's 0 entries (immunities)
      and its explicit neutral 1 entries. */
  const TypeChart: map<string, map<string, real>> := map[
    "normal" := map["rock" := 0.5, "ghost" := 0.0, "steel" := 0.5],
    "fire" := map["fire" := 0.5, "water" := 0.5, "grass" := 2.0, "ice" := 2.0, "bug" := 2.0,
                  "rock" := 0.5, "dragon" := 0.5, "steel" := 2.0],
    "water" := map["fire" := 2.0, "water" := 0.5, "grass" := 0.5, "ground" := 2.0, "rock" := 2.0,
                   "dragon" := 0.5],
    "electric" := map["water" := 2.0, "grass" := 0.5, "ground" := 0.0, "flying" := 2.0, "dragon" := 0.5],
    "grass" := map["fire" := 0.5, "water" := 2.0, "grass" := 0.5, "poison" := 0.5, "ground" := 2.0,
                   "flying" := 0.5, "bug" := 0.5, "dragon" := 0.5, "steel" := 0.5],
    "ice" := map["water" := 0.5, "grass" := 2.0, "ground" := 2.0, "flying" := 2.0, "dragon" := 2.0,
                 "steel" := 0.5],
    "fighting" := map["normal" := 2.0, "ice" := 2.0, "poison" := 0.5, "flying" := 0.5, "psychic" := 0.5,
                      "bug" := 0.5, "rock" := 2.0, "ghost" := 0.0, "dragon" := 1.0, "steel" := 2.0],
    "poison" := map["grass" := 2.0, "poison" := 0.5, "ground" := 0.5, "bug" := 2.0, "rock" := 0.5,
                    "ghost" := 0.5, "dragon" := 1.0, "steel" := 0.0],
    "ground" := map["fire" := 2.0, "electric" := 2.0, "grass" := 0.5, "poison" := 2.0, "flying" := 0.0,
                    "bug" := 0.5, "rock" := 2.0, "steel" := 2.0],
    "flying" := map["electric" := 0.5, "grass" := 2.0, "fighting" := 2.0, "bug" := 2.0, "rock" := 0.5,
                    "steel" := 0.5],
    "psychic" := map["fighting" := 2.0, "poison" := 2.0, "psychic" := 0.5, "dark" := 0.0, "steel" := 0.5],
    "bug" := map["fire" := 0.5, "grass" := 2.0, "fighting" := 0.5, "poison" := 0.5, "flying" := 0.5,
                 "psychic" := 2.0, "ghost" := 0.5, "dark" := 2.0, "steel" := 0.5],
    "rock" := map["fire" := 2.0, "ice" := 2.0, "fighting" := 0.5, "ground" := 0.5, "flying" := 2.0,
                  "bug" := 2.0, "steel" := 0.5],
    "ghost" := map["normal" := 0.0, "psychic" := 2.0, "ghost" := 2.0, "dark" := 0.5],
    "dragon" := map["dragon" := 2.0, "steel" := 0.5],
    "dark" := map["fighting" := 0.5, "psychic" := 2.0, "ghost" := 2.0, "dark" := 0.5, "steel" := 0.5],
    "steel" := map["fire" := 0.5, "water" := 0.5, "electric" := 0.5, "ice" := 2.0, "rock" := 2.0,
                   "steel" := 0.5]
  ]

  /** True when the chart has an entry for the ordered pair. */
  predicate Listed(attackType: string, defenseType: string)
  {
    attackType in TypeChart && defenseType in TypeChart[attackType]
  }

  /** Every chart entry is one of the canonical multipliers 0, 1/2, 1, 2. */
  lemma ChartEntriesCanonical(attackType: string, defenseType: string)
    requires Listed(attackType, defenseType)
    ensures TypeChart[attackType][defenseType] in {0.0, 0.5, 1.0, 2.0}
  {
  }

  /** The chart lookup with its fallback: a missing row, a missing column
      and a 0 entry (falsy) all read as neutral 1. */
  function TypeEffectiveness(attackType: string, defenseType: string): (e: real)
    ensures e == 0.5 || e == 1.0 || e == 2.0
    ensures !Listed(attackType, defenseType) ==> e == 1.0
    ensures Listed(attackType, defenseType) && TypeChart[attackType][defenseType] != 0.0 ==>
              e == TypeChart[attackType][defenseType]
    ensures Listed(attackType, defenseType) && TypeChart[attackType][defenseType] == 0.0 ==> e == 1.0
  {
    if Listed(attackType, defenseType) then
      ChartEntriesCanonical(attackType, defenseType);
      var v := TypeChart[attackType][defenseType];
      if v != 0.0 then v else 1.0
    else 1.0
  }

  /** The level-50 factor (2 * 50 + 10) / 250 of the formula. */
  const LevelFactor: real := (2 * 50 + 10) as real / 250.0

  /** level factor * attack / defense * power + 2, before rounding down. */
  function RawBaseDamage(attack: int, defense: int, power: int): real
    requires defense > 0
  {
    LevelFactor * (attack as real / defense as real) * power as real + 2.0
  }

  /** The base damage, floor(level factor * attack / defense * power + 2),
      is the integer quotient (110 * attack * power + 500 * defense) / (250 * defense);
      with non-negative attack and power it is at least 2, even for a
      power-0 (status) move. */
  function BaseDamage(attack: int, defense: int, power: int): (b: int)
    requires defense > 0
    ensures b == (110 * attack * power + 500 * defense) / (250 * defense)
    ensures attack >= 0 && power >= 0 ==> b >= 2
  {
    RawBaseDamageFloor(attack, defense, power);
    RawBaseDamage(attack, defense, power).Floor
  }

  /** The damage `attacker` deals to `defender` with `move`: base * halves *
      accuracy / 200 rounded down, where halves is the effectiveness of the
      move's type against the defender's FIRST type, counted in halves.
      Accuracy scales the damage instead of deciding a hit. */
  function CalculateDamage(attacker: Pokemon, defender: Pokemon, move: PokemonMove): (d: int)
    requires CanDefend(defender)
    ensures d == BaseDamage(attacker.stats.attack, defender.stats.defense, move.power) *
                 EffectivenessHalves(move.moveType.name, defender.types[0].name) * move.accuracy / 200
  {
    var base := BaseDamage(attacker.stats.attack, defender.stats.defense, move.power);
    var effectiveness := TypeEffectiveness(move.moveType.name, defender.types[0].name);
    ScaledFloor(base, effectiveness, EffectivenessHalves(move.moveType.name, defender.types[0].name), move.accuracy);
    (base as real * effectiveness * (move.accuracy as real / 100.0)).Floor
  }

  /** The effectiveness counted in halves: 1, 2 or 4 for 0.5, 1 and 2. */
  function EffectivenessHalves(attackType: string, defenseType: string): (h: int)
    ensures h == 1 || h == 2 || h == 4
    ensures h as real == 2.0 * TypeEffectiveness(attackType, defenseType)
  {
    var e := TypeEffectiveness(attackType, defenseType);
    if e == 0.5 then 1 else if e == 1.0 then 2 else 4
  }

  /** Flooring a rational quotient with a positive divisor is integer division. */
  lemma FloorOfQuotient(n: int, m: int)
    requires m > 0
    ensures (n as real / m as real).Floor == n / m
  {
    var q, r := n / m, n % m;
    assert n == q * m + r;
    assert n as real / m as real == q as real + r as real / m as real;
    assert 0.0 <= r as real / m as real < 1.0;
  }

  /** The unrounded base damage rounds down to an integer quotient. */
  lemma RawBaseDamageFloor(attack: int, defense: int, power: int)
    requires defense > 0
    ensures RawBaseDamage(attack, defense, power).Floor == (110 * attack * power + 500 * defense) / (250 * defense)
  {
    var n, m := 110 * attack * power + 500 * defense, 250 * defense;
    var a, d, p := attack as real, defense as real, power as real;
    var ratio := a / d;
    assert ratio * d == a;
    var y := LevelFactor * ratio * p + 2.0;
    assert LevelFactor == 110.0 / 250.0;
    assert y * (250.0 * d) == 110.0 * (ratio * d) * p + 500.0 * d;
    assert (attack * power) as real == a * p;
    assert n as real == 110.0 * a * p + 500.0 * d;
    assert m as real == 250.0 * d;
    assert y * m as real == n as real;
    assert y == n as real / m as real;
    assert RawBaseDamage(attack, defense, power) == y;
    FloorOfQuotient(n, m);
  }

  /** Scaling by an effectiveness of h halves and an accuracy percentage,
      then rounding down, is an integer quotient. */
  lemma ScaledFloor(base: int, effectiveness: real, h: int, accuracy: int)
    requires h as real == 2.0 * effectiveness
    ensures (base as real * effectiveness * (accuracy as real / 100.0)).Floor == base * h * accuracy / 200
  {
    var n := base * h * accuracy;
    assert n as real == base as real * h as real * accuracy as real;
    assert base as real * effectiveness * (accuracy as real / 100.0) == n as real / 200.0;
    FloorOfQuotient(n, 200);
  }

  /** The integer bounds behind DamageBounds. */
  lemma ScaledBounds(base: int, h: int, accuracy: int)
    requires base >= 0 && (h == 1 || h == 2 || h == 4) && 0 <= accuracy <= 100
    ensures 0 <= base * h * accuracy / 200 <= 2 * base
    ensures accuracy == 0 ==> base * h * accuracy / 200 == 0
  {
    var n := base * accuracy;
    assert 0 <= n <= base * 100;
    assert base * h * accuracy == h * n;
  }

  /** For a catalog move and a non-negative attack the damage is never
      negative, is 0 at accuracy 0, and is at most twice the base damage. */
  lemma DamageBounds(attacker: Pokemon, defender: Pokemon, move: PokemonMove)
    requires CanDefend(defender) && attacker.stats.attack >= 0 && ValidMove(move)
    ensures 0 <= CalculateDamage(attacker, defender, move)
    ensures CalculateDamage(attacker, defender, move) <=
              2 * BaseDamage(attacker.stats.attack, defender.stats.defense, move.power)
    ensures move.accuracy == 0 ==> CalculateDamage(attacker, defender, move) == 0
  {
    ScaledBounds(BaseDamage(attacker.stats.attack, defender.stats.defense, move.power),
                 EffectivenessHalves(move.moveType.name, defender.types[0].name), move.accuracy);
  }

  /** Only the defender's defense and first type matter to the damage:
      later types are ignored. */
  lemma DamageUsesFirstTypeOnly(attacker: Pokemon, defender: Pokemon, other: Pokemon, move: PokemonMove)
    requires CanDefend(defender) && CanDefend(other)
    requires other.stats.defense == defender.stats.defense
    requires other.types[0].name == defender.types[0].name
    ensures CalculateDamage(attacker, other, move) == CalculateDamage(attacker, defender, move)
  {
  }

  /** The damage depends on nothing but the attacker's attack, the defender's
      defense and first type, and the move's power, accuracy and type. */
  lemma DamageIsDetermined(a1: Pokemon, a2: Pokemon, d1: Pokemon, d2: Pokemon, m1: PokemonMove, m2: PokemonMove)
    requires CanDefend(d1) && CanDefend(d2)
    requires a1.stats.attack == a2.stats.attack && d1.stats.defense == d2.stats.defense
    requires d1.types[0].name == d2.types[0].name
    requires m1.power == m2.power && m1.accuracy == m2.accuracy && m1.moveType.name == m2.moveType.name
    ensures CalculateDamage(a1, d1, m1) == CalculateDamage(a2, d2, m2)
  {
  }

  /** A 0 entry (an immunity in the chart) is falsy and reads as neutral 1. */
  lemma ImmunitiesReadAsNeutral()
    ensures TypeChart["normal"]["ghost"] == 0.0 && TypeEffectiveness("normal", "ghost") == 1.0
    ensures TypeChart["electric"]["ground"] == 0.0 && TypeEffectiveness("electric", "ground") == 1.0
    ensures TypeChart["poison"]["steel"] == 0.0 && TypeEffectiveness("poison", "steel") == 1.0
  {
  }

  /** Listed pairs return their entry, and the chart is not symmetric. */
  lemma ChartIsAsymmetric()
    ensures TypeEffectiveness("water", "fire") == 2.0 && TypeEffectiveness("water", "water") == 0.5
    ensures TypeEffectiveness("fire", "grass") == 2.0 && TypeEffectiveness("grass", "fire") == 0.5
    ensures TypeEffectiveness("normal", "fire") == 1.0 && TypeEffectiveness("fire", "normal") == 1.0
  {
  }

  /** The creature and move of the worked example: attack 100 against
      defense 50, a power-90 move of the given type and accuracy. */
  function ExampleAttacker(): Pokemon
  {
    Pokemon(1, "attacker", [PokemonType("normal", "")], [], PokemonStats(100, 100, 50, 0, 0, 0), [], Sprites("", ""))
  }

  function ExampleDefender(defenseType: string): Pokemon
  {
    Pokemon(2, "defender", [PokemonType(defenseType, "")], [], PokemonStats(150, 100, 50, 0, 0, 0), [], Sprites("", ""))
  }

  function ExampleMove(moveType: string, accuracy: int): PokemonMove
  {
    PokemonMove("move", "", 90, accuracy, PokemonType(moveType, ""))
  }

  /** Base 81; water on fire 162, water on water 40, at accuracy 50 81. */
  lemma WorkedExample()
    ensures BaseDamage(100, 50, 90) == 81
    ensures CalculateDamage(ExampleAttacker(), ExampleDefender("fire"), ExampleMove("water", 100)) == 162
    ensures CalculateDamage(ExampleAttacker(), ExampleDefender("water"), ExampleMove("water", 100)) == 40
    ensures CalculateDamage(ExampleAttacker(), ExampleDefender("fire"), ExampleMove("water", 50)) == 81
  {
  }
}
