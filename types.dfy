/** The domain records of the battle game: creatures, their stats and moves,
    and the state of one battle. Everything here is a value. */
module PokemonTypes {

  datatype Option<+T> = None | Some(value: T)

  /** An elemental type tag, e.g. "fire" or "water", with its catalog link. */
  datatype PokemonType = PokemonType(name: string, url: string)

  datatype PokemonAbility = PokemonAbility(name: string, url: string, isHidden: bool)

  /** The six named base stats; `hp` is the one a battle changes. */
  datatype PokemonStats = PokemonStats(
    hp: int,
    attack: int,
    defense: int,
    specialAttack: int,
    specialDefense: int,
    speed: int)

  /** A move has exactly one type; power 0 stands for a status move. */
  datatype PokemonMove = PokemonMove(name: string, url: string, power: int, accuracy: int, moveType: PokemonType)

  datatype Sprites = Sprites(frontDefault: string, backDefault: string)

  datatype Pokemon = Pokemon(
    id: int,
    name: string,
    types: seq<PokemonType>,
    abilities: seq<PokemonAbility>,
    stats: PokemonStats,
    moves: seq<PokemonMove>,
    sprites: Sprites)

  /** The two sides of a battle ('player' and 'opponent'). */
  datatype Side = Player | Opponent

  /** 'pvp' (two humans) or 'pve' (a human against the computer); the mode
      selector also offers an empty choice, which is neither. */
  datatype GameMode = Pvp | Pve | Unselected

  /** The state of one battle; either combatant slot may be empty. */
  datatype BattleState = BattleState(
    playerPokemon: Option<Pokemon>,
    opponentPokemon: Option<Pokemon>,
    currentTurn: Side,
    battleLog: seq<string>,
    isGameOver: bool,
    winner: Option<Side>)

  /** What the catalog guarantees of every move it hands out: a missing power
      or accuracy is read as 0, and accuracy is a percentage. */
  predicate ValidMove(m: PokemonMove)
  {
    m.power >= 0 && 0 <= m.accuracy <= 100
  }

  /** What the damage formula needs of a defender: a non-zero defense
      (the divisor) and a first type to look up. */
  predicate CanDefend(p: Pokemon)
  {
    p.stats.defense > 0 && |p.types| > 0
  }

  /** What stays true of a combatant for a whole battle: it can defend,
      its attack is non-negative and it has at most four catalog moves. */
  predicate BattleReady(p: Pokemon)
  {
    CanDefend(p) && p.stats.attack >= 0 &&
    |p.moves| <= 4 && forall i :: 0 <= i < |p.moves| ==> ValidMove(p.moves[i])
  }

  /** What the catalog guarantees of every creature it hands out: it is
      battle-ready and its base hp is positive. */
  predicate WellFormed(p: Pokemon)
  {
    BattleReady(p) && p.stats.hp > 0
  }
}
