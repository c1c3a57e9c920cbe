# PokeBattle battle core in Dafny

A model of the battle simulation of PokeBattle, a browser game in which a
player picks a Pokémon and fights a randomly fetched opponent. In 'pve'
mode the computer answers each of the player's moves with a move of the
opponent's; in 'pvp' mode a second player's name is recorded, but only the
player's creature has move buttons. The model covers:

- `types.dfy` (module `PokemonTypes`): the domain records — stats, moves,
  creatures, the two sides, the game mode and the battle state — as
  datatypes, plus the guarantees the catalog gives about every creature it
  hands out (`WellFormed`: positive hp, non-negative attack, positive
  defense, at least one type, at most four moves each with power >= 0 and
  accuracy in 0..100). These properties hold by construction of these
  datatypes: `currentTurn` is `Player` or `Opponent`; `winner` is
  `None`, `Some(Player)` or `Some(Opponent)`; either combatant slot is an
  `Option` and may be empty; the battle log is a `seq<string>`; a move has
  one name, power, accuracy and type; a creature has an ordered list of
  types, six named stats and a list of moves.
- `damage.dfy` (module `PokemonService`): `calculateDamage` and
  `getTypeEffectiveness` with its chart. The formula is written exactly as in
  the source over `real` (exact rationals); the contracts of `BaseDamage`
  and `CalculateDamage` give its integer closed form
  `(110·atk·pow + 500·def) / (250·def)` for the base and
  `base · halves · accuracy / 200` for the result, where `halves` is the
  effectiveness counted in halves (1, 2 or 4).
- `number_text.dfy` (module `NumberText`): the decimal rendering of the
  damage inside the log lines, with its parse-back round trip.
- `battle.dfy` (module `BattleEngine`): the battle screen's state machine.
  Pure functions `PlayerMove`, `CpuMove` and `Attack` specify one button
  press; the class `Battle` holds the state in fields and its methods
  `PlayerAttack`, `CpuAttack` and `HandleAttack` update them as
  `handleAttack` does, each proved equal to its function. The invariant
  `BattleInvariant` (hp within [0, max], the only change to a creature is its
  hp, the turn is always the player's, the battle is over exactly when one
  hp is 0 and the winner is the other side, log lines come in pairs) is
  proved to hold for every sequence of presses and random rolls.
- `game.dfy` (module `GameScreen`): the game screen's bookkeeping — the id
  requested for a chosen name, the checks before a battle starts, the win/loss
  tallies and their reset — as the class `Game`, with pure functions and
  lemmas for the tallies.

The random draws are parameters: the computer's move is picked by a `roll`
in [0, 1) (index `floor(roll · count)`), and the catalog's answers (the
chosen creature, the random opponent) are passed in as `Option<Pokemon>`,
`None` standing for a failed request.

The worked example: attack 100 against defense 50 with a power-90,
accuracy-100 water move gives base damage 81 and damage 162 against a fire
defender, 40 against a water defender, and 81 at accuracy 50, with the
level factor (2·50 + 10)/250 = 0.44. `currentTurn` is set to the player
when the battle starts and never reassigned (`TurnIsNeverReassigned`). A
zero defense is not guarded against (see Left out).

Preserved quirks of the source: a 0 entry of the chart (an immunity, e.g.
normal→ghost) is falsy and reads as 1, so the effectiveness is always 0.5,
1 or 2; only the defender's first type is looked up; accuracy scales the
damage instead of deciding a hit; a power-0 move still has base damage 2;
the mode selector's empty option (`Unselected`) names the second player
"CPU" but lets no computer reply happen; outside 'pve' mode the opponent's
creature never attacks, so the player's creature is never hit and every
battle that ends is won by the first player (`OpponentNeverWinsOutsidePve`).

## Model

| member | source | states |
|---|---|---|
| PokemonService.TypeEffectiveness | src/services/pokemonService.ts:77-99 | The result is always 0.5, 1 or 2; an attack type without a row or a defense type without an entry gives 1; a non-zero entry is returned as listed; a 0 entry (an immunity) gives 1. |
| PokemonService.ChartEntriesCanonical | src/services/pokemonService.ts:79-97 | Every entry of the chart is one of 0, 0.5, 1, 2. |
| PokemonService.ImmunitiesReadAsNeutral | src/services/pokemonService.ts:80-99 | The 0 entries normal→ghost, electric→ground, poison→steel are returned as 1 by the `|| 1` fallback. |
| PokemonService.ChartIsAsymmetric | src/services/pokemonService.ts:81-84 | water→fire is 2 and water→water 0.5; fire→grass is 2 but grass→fire 0.5; an unlisted pair (normal→fire, fire→normal) is 1. |
| PokemonService.BaseDamage | src/services/pokemonService.ts:69 | floor(110/250 · atk/def · power + 2) equals the integer quotient (110·atk·power + 500·def) / (250·def) for every defense > 0; with attack >= 0 and power >= 0 it is at least 2, also for a power-0 move. |
| PokemonService.CalculateDamage | src/services/pokemonService.ts:62-75 | The damage equals base · halves · accuracy / 200, rounded down, with halves the effectiveness of the move's type against the defender's first type, counted in halves (1, 2 or 4). |
| PokemonService.DamageBounds | src/services/pokemonService.ts:66-74 | For a catalog move and attack >= 0 the damage is >= 0, at most twice the base damage, and 0 at accuracy 0. |
| PokemonService.DamageUsesFirstTypeOnly | src/services/pokemonService.ts:72 | Two defenders with the same defense and the same first type take the same damage, whatever their later types. |
| PokemonService.DamageIsDetermined | src/services/pokemonService.ts:62-75 | The damage depends only on attack, defense, the defender's first type, and the move's power, accuracy and type. |
| PokemonService.WorkedExample | src/services/pokemonService.ts:62-99 | Attack 100, defense 50, power 90: base 81; water on fire 162, water on water 40, water on fire at accuracy 50 gives 81. |
| NumberText.IntToStringRoundTrip | src/components/Battle.tsx:82 | The number interpolated into a log line reads back to the same number, so distinct damages give distinct lines. |
| BattleEngine.CpuMoveIndex | src/components/Battle.tsx:101-103 | For a roll in [0, 1) the computer's index floor(roll · count) lies in [0, count) when there is a move, and is 0 when there is none. |
| BattleEngine.PlayerMove | src/components/Battle.tsx:68-96 | The player's move (opponent hp max(0, hp − d), two log lines, knockout ends the battle for the player) keeps both slots valid damage targets; its effect is stated in PlayerMoveEffect. |
| BattleEngine.CpuMove | src/components/Battle.tsx:99-133 | The computer's move keeps both slots valid damage targets; its effect is stated in CpuMoveEffect and, for an opponent without moves, in CpuWithoutMovesChangesNothing. |
| BattleEngine.Attack | src/components/Battle.tsx:55-141 | A press keeps both slots valid damage targets; its effects are stated in the lemmas below. |
| BattleEngine.InitialState | src/components/Battle.tsx:33-46 | The initial state (empty log, not over, no winner, player's turn, each hp at that side's maximum) of two catalog creatures satisfies the battle invariant. |
| BattleEngine.PlayerMovePreservesInvariant | src/components/Battle.tsx:68-96 | The player's move keeps the battle invariant. |
| BattleEngine.CpuMovePreservesInvariant | src/components/Battle.tsx:110-133 | The computer's move keeps the invariant of a battle that is not over. |
| BattleEngine.AttackPreservesInvariant | src/components/Battle.tsx:55-141 | A whole button press keeps the battle invariant. |
| BattleEngine.AttackNeverRaisesHp | src/components/Battle.tsx:76 | A press never raises either side's hp and never takes it below 0. |
| BattleEngine.AttackAfterGameOverChangesNothing | src/components/Battle.tsx:56 | Once the battle is over a press changes nothing. |
| BattleEngine.IncompletePressChangesNothing | src/components/Battle.tsx:56-65 | A press with an empty combatant slot, or naming a move the creature does not have (the damage computation throws first), changes nothing. |
| BattleEngine.PlayerMoveEffect | src/components/Battle.tsx:58-85 | The player's move appends "<player> used <move>!" and "It dealt <d> damage to <opponent>!" to the earlier log, sets the opponent's hp to max(0, hp − d), and leaves the player's creature and the turn unchanged. |
| BattleEngine.PlayerKnockoutEndsBattle | src/components/Battle.tsx:87-96 | When the damage reaches the opponent's hp the battle is over, won by the player, no computer move follows and the log grows by exactly two lines. |
| BattleEngine.OpponentNeverWinsOutsidePve | src/components/Battle.tsx:98-100 | Outside 'pve' mode a press never hits the player's creature and never makes the opponent the winner. |
| BattleEngine.NoCpuMoveOutsidePve | src/components/Battle.tsx:98-100 | In any mode but 'pve' ('pvp' or the empty choice) a press that does not knock the opponent out is just the player's move; the battle goes on. |
| BattleEngine.CpuWithoutMovesChangesNothing | src/components/Battle.tsx:101-107 | With an empty move list the computer's pick is undefined and the damage computation throws before any state is set: nothing changes. |
| BattleEngine.CpuMoveEffect | src/components/Battle.tsx:99-133 | The computer uses the move at floor(roll · count): the player's hp becomes max(0, hp − d), its two lines are appended, and the battle is over with winner 'opponent' exactly when the new hp is 0, otherwise the winner is null. |
| BattleEngine.CpuRepliesInPve | src/components/Battle.tsx:98-140 | In 'pve' mode a press that leaves the opponent standing is the player's move followed by the computer's. |
| BattleEngine.AttackAppendsToLog | src/components/Battle.tsx:79-129 | A press keeps every earlier log line and appends 0, 2 or 4 lines; none exactly when the press is ignored. |
| BattleEngine.TurnIsNeverReassigned | src/components/Battle.tsx:36 | A press never changes `currentTurn`. |
| BattleEngine.MoveButtonDisabled | src/components/Battle.tsx:192 | While the turn is the player's (always, by the battle invariant) the move buttons are disabled exactly when the battle is over. |
| BattleEngine.ReplayKeepsInvariant | src/components/Battle.tsx:55-141 | Every sequence of presses and rolls keeps the battle invariant. |
| BattleEngine.GameOverIsFinal | src/components/Battle.tsx:56 | After game over every sequence of presses leaves the state as it is. |
| BattleEngine.Battle.constructor | src/components/Battle.tsx:33-46 | The new battle holds the initial state, records each side's max hp, and satisfies the invariant. |
| BattleEngine.Battle.PlayerAttack | src/components/Battle.tsx:58-96 | The fields change as PlayerMove says; the returned flag is the knockout check `hp − damage <= 0` and equals the new `isGameOver`. |
| BattleEngine.Battle.CpuAttack | src/components/Battle.tsx:99-138 | The fields change as CpuMove says; the returned flag (the source's `hp − damage <= 0` check before reporting the end) equals the new `isGameOver`. |
| BattleEngine.Battle.HandleAttack | src/components/Battle.tsx:55-141 | The fields change as Attack says, the invariant is kept, and the reported winner is present exactly when this press ended the battle and names the winner recorded in the state. |
| GameScreen.FindIndex | src/components/Game.tsx:56 | The result is the first position holding the name, or −1 exactly when no entry has it. |
| GameScreen.SelectedId | src/components/Game.tsx:56 | The requested id is the position of the first entry with that name + 1, in [0, length]; it is 0 exactly when the name is not in the list. |
| GameScreen.StartBattleRefusal | src/components/Game.tsx:65-73 | The start handler raises one of its two alerts or none; the second-name alert exactly in 'pvp' mode with creature and first name present and the second name empty; no alert exactly when a creature is chosen, the first name is set and, in 'pvp' mode, the second name too. |
| GameScreen.StartButtonDisabled | src/components/Game.tsx:224 | The start button is disabled exactly when the start handler would refuse with an alert. |
| GameScreen.SecondPlayerName | src/components/Game.tsx:80 | Player 2 is named after the entered second name in 'pvp' mode and "CPU" in every other mode, the empty choice included. |
| GameScreen.RecordResult | src/components/Game.tsx:88-94 | A result adds one game to each tally: winner 'player' gives p1 a win and p2 a loss, otherwise p1 a loss and p2 a win; names unchanged; mirrored tallies stay mirrored. |
| GameScreen.ResetTally | src/components/Game.tsx:101-102 | A reset leaves no games counted for either player, a mirrored pair, and keeps both names. |
| GameScreen.TallyStaysMirrored | src/components/Game.tsx:86-103 | Through any sequence of battle ends, resets and battle starts, p1's wins stay p2's losses and p1's losses p2's wins. |
| GameScreen.TallyCountsBattles | src/components/Game.tsx:86-94 | From zero and without a reset, p1's wins and losses count the battles won by the player and by the opponent. |
| GameScreen.Game.constructor | src/components/Game.tsx:27-35 | The screen starts with no list, no creatures, 'pve' mode, empty names, no battle, and both tallies at 0 with empty names. |
| GameScreen.Game.ReceivePokemonList | src/components/Game.tsx:40-51 | The fetched list replaces the creature list; nothing else changes. |
| GameScreen.Game.SetGameMode | src/components/Game.tsx:155 | The mode selector sets the mode only. |
| GameScreen.Game.SetPlayerName | src/components/Game.tsx:175 | The name field sets player 1's name only. |
| GameScreen.Game.SetPlayer2Name | src/components/Game.tsx:185 | The second name field sets player 2's name only. |
| GameScreen.Game.HandlePokemonSelect | src/components/Game.tsx:53-62 | The requested id is SelectedId of the name; a successful fetch becomes the selection, a failed one changes nothing. |
| GameScreen.Game.HandleStartBattle | src/components/Game.tsx:64-84 | The battle starts exactly when the start button is enabled and the opponent fetch succeeds; a refusal changes nothing; on start p1 is named after the player and p2 after player 2 in 'pvp' mode or "CPU" otherwise, tallies kept. |
| GameScreen.Game.HandleBattleEnd | src/components/Game.tsx:86-98 | The tallies record the result as RecordResult says; the battle flag, the selection and the opponent are cleared. |
| GameScreen.Game.HandleResetStats | src/components/Game.tsx:100-103 | All wins and losses become 0 and both names are kept. |

## Left out

- Fetching from the catalog (`getPokemonList`, `getPokemonById`, `getRandomPokemon`, src/services/pokemonService.ts:7-60) is network I/O; its results are parameters, and its guarantees (missing power or accuracy read as 0, at most four moves, at least one type) are the `WellFormed` precondition.
- `Math.random` is replaced by the `roll` parameter, required to lie in [0, 1).
- IEEE-754 rounding: the damage formula is computed over exact rationals.
- `CalculateDamage` requires a positive defense and at least one defender type; with defense 0 the source computes Infinity or NaN, and without a type it throws. Catalog creatures always satisfy both.
- `TypeEffectiveness` treats every unlisted name as neutral; the source's object lookup would also find inherited property names such as "constructor", which no catalog type name is.
- React rendering, the one-second `setTimeout`, `alert`, and state batching: each handler is one atomic step. The computer's damage is computed from the state after the player's move; the source reads a snapshot from before it, which differs only in the opponent's hp, an input the formula does not use. A second press inside the one-second window, which queues two computer replies, is not modelled.
- The `onBattleEnd` callback is the value `HandleAttack` returns; calling `Game.HandleBattleEnd` with it is left to the caller.
- `NumberText.IntToString` renders whole numbers in plain decimal; JavaScript switches to exponential notation from 10^21, which no damage reaches.
- Log rendering, hp progress bars, `PokemonCard`, the theme and the React bootstrap are presentation.
- The `GameMode` interface of src/types/pokemon.ts:51-55 is not used by the battle core; the game screen's own mode choice is modelled. Abilities and sprites are carried in the datatypes but not used.
- PlayerMove, CpuMove and Attack carry only the contract that the combatants stay valid damage targets; their effects are proved in the lemmas named in the table.
