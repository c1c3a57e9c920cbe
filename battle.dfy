/** One battle between the player's creature and an opponent: the state
    transitions of an attack, the computer's reply in player-versus-CPU
    mode, and the game-over detection. The pure functions specify each
    transition; the class `Battle` performs them by updating its fields. */
module BattleEngine {
  import opened PokemonTypes
  import opened PokemonService
  import NumberText

  /** First log line of an attack: "<attacker> used <move>!". */
  function UsedMessage(attackerName: string, moveName: string): string
  {
    attackerName + " used " + moveName + "!"
  }

  /** Second log line of an attack: "It dealt <damage> damage to <defender>!". */
  function DealtMessage(damage: int, defenderName: string): string
  {
    "It dealt " + NumberText.IntToString(damage) + " damage to " + defenderName + "!"
  }

  /** The same creature with its current hp replaced. */
  function WithHp(p: Pokemon, hp: int): Pokemon
  {
    p.(stats := p.stats.(hp := hp))
  }

  /** max(0, hp - damage): hp never drops below 0. */
  function RemainingHp(hp: int, damage: int): int
  {
    if hp - damage < 0 then 0 else hp - damage
  }

  /** A fresh battle: both creatures at their full hp, the player to move,
      an empty log, nobody has won. Started from two catalog creatures it
      satisfies the battle invariant. */
  function InitialState(player: Pokemon, opponent: Pokemon): (s: BattleState)
    ensures WellFormed(player) && WellFormed(opponent) ==> BattleInvariant(s, player, opponent)
  {
    BattleState(Some(player), Some(opponent), Player, [], false, None)
  }

  /** Whatever sits in a combatant slot can be the target of the damage formula. */
  predicate SlotsCanDefend(s: BattleState)
  {
    (s.playerPokemon.Some? ==> CanDefend(s.playerPokemon.value)) &&
    (s.opponentPokemon.Some? ==> CanDefend(s.opponentPokemon.value))
  }

  /** The player's move goes ahead: the battle is on, both slots are filled
      and the chosen move exists (otherwise the damage computation throws
      before any state is written). */
  predicate CanAttack(s: BattleState, moveIndex: int)
  {
    !s.isGameOver && s.playerPokemon.Some? && s.opponentPokemon.Some? &&
    0 <= moveIndex < |s.playerPokemon.value.moves|
  }

  /** The damage of the player's chosen move against the opponent. */
  function PlayerDamage(s: BattleState, moveIndex: int): int
    requires CanAttack(s, moveIndex) && SlotsCanDefend(s)
  {
    var player := s.playerPokemon.value;
    CalculateDamage(player, s.opponentPokemon.value, player.moves[moveIndex])
  }

  /** The player's move: the opponent loses the damage (down to 0), two
      lines are logged, and a knockout ends the battle in the player's favour. */
  function PlayerMove(s: BattleState, moveIndex: int): (t: BattleState)
    requires CanAttack(s, moveIndex) && SlotsCanDefend(s)
    ensures SlotsCanDefend(t)
  {
    var player, opponent := s.playerPokemon.value, s.opponentPokemon.value;
    var move := player.moves[moveIndex];
    var damage := PlayerDamage(s, moveIndex);
    var hit := s.(opponentPokemon := Some(WithHp(opponent, RemainingHp(opponent.stats.hp, damage))),
                  battleLog := s.battleLog + [UsedMessage(player.name, move.name), DealtMessage(damage, opponent.name)]);
    if opponent.stats.hp - damage <= 0 then hit.(isGameOver := true, winner := Some(Player)) else hit
  }

  /** The computer's move index floor(roll * count) for a roll in [0, 1). */
  function CpuMoveIndex(roll: real, moveCount: nat): (i: int)
    requires 0.0 <= roll < 1.0
    ensures moveCount > 0 ==> 0 <= i < moveCount
    ensures moveCount == 0 ==> i == 0
  {
    var x := roll * moveCount as real;
    assert 0.0 <= x;
    assert moveCount > 0 ==> x < moveCount as real;
    x.Floor
  }

  /** The computer's move: the player loses the damage (down to 0), two
      lines are logged, and the battle is over, won by the opponent, exactly
      when the player's hp is 0. With no moves to pick from nothing changes. */
  function CpuMove(s: BattleState, roll: real): (t: BattleState)
    requires SlotsCanDefend(s) && 0.0 <= roll < 1.0
    ensures SlotsCanDefend(t)
  {
    if s.playerPokemon.None? || s.opponentPokemon.None? then s
    else
      var player, cpu := s.playerPokemon.value, s.opponentPokemon.value;
      var j := CpuMoveIndex(roll, |cpu.moves|);
      if j >= |cpu.moves| then s
      else
        var move := cpu.moves[j];
        var damage := CalculateDamage(cpu, player, move);
        var newHp := RemainingHp(player.stats.hp, damage);
        s.(playerPokemon := Some(WithHp(player, newHp)),
           battleLog := s.battleLog + [UsedMessage(cpu.name, move.name), DealtMessage(damage, player.name)],
           isGameOver := newHp <= 0,
           winner := if newHp <= 0 then Some(Opponent) else None)
  }

  /** One press of a move button: the player's move, then, in
      player-versus-CPU mode and if the opponent survived, the computer's. */
  function Attack(s: BattleState, mode: GameMode, moveIndex: int, roll: real): (t: BattleState)
    requires SlotsCanDefend(s) && 0.0 <= roll < 1.0
    ensures SlotsCanDefend(t)
  {
    if !CanAttack(s, moveIndex) then s
    else
      var afterPlayer := PlayerMove(s, moveIndex);
      if afterPlayer.isGameOver || mode != Pve then afterPlayer
      else CpuMove(afterPlayer, roll)
  }

  function PlayerHp(s: BattleState): int
    requires s.playerPokemon.Some?
  {
    s.playerPokemon.value.stats.hp
  }

  function OpponentHp(s: BattleState): int
    requires s.opponentPokemon.Some?
  {
    s.opponentPokemon.value.stats.hp
  }

  /** What holds throughout a battle that started from `player` and
      `opponent`: the slots hold those creatures with only hp changed, each
      hp lies in [0, max hp], it is always the player's turn, the battle is
      over exactly when one hp is 0, the winner is the side whose foe is at
      0, and log lines come in pairs. */
  predicate BattleInvariant(s: BattleState, player: Pokemon, opponent: Pokemon)
  {
    WellFormed(player) && WellFormed(opponent) &&
    s.playerPokemon.Some? && s.opponentPokemon.Some? &&
    s.playerPokemon.value == WithHp(player, PlayerHp(s)) &&
    s.opponentPokemon.value == WithHp(opponent, OpponentHp(s)) &&
    0 <= PlayerHp(s) <= player.stats.hp &&
    0 <= OpponentHp(s) <= opponent.stats.hp &&
    s.currentTurn == Player &&
    (s.isGameOver <==> s.winner.Some?) &&
    (s.winner == Some(Player) <==> OpponentHp(s) == 0) &&
    (s.winner == Some(Opponent) <==> PlayerHp(s) == 0) &&
    |s.battleLog| % 2 == 0
  }

  /** The move buttons' disabled condition. While the turn is the
      player's, which the invariant keeps, it is exactly game over. */
  predicate MoveButtonDisabled(s: BattleState)
    ensures s.currentTurn == Player ==> (MoveButtonDisabled(s) <==> s.isGameOver)
  {
    s.isGameOver || s.currentTurn != Player
  }

  /** The player's move keeps the invariant. */
  lemma PlayerMovePreservesInvariant(s: BattleState, player: Pokemon, opponent: Pokemon, moveIndex: int)
    requires BattleInvariant(s, player, opponent) && CanAttack(s, moveIndex)
    ensures BattleInvariant(PlayerMove(s, moveIndex), player, opponent)
  {
    var p := s.playerPokemon.value;
    assert ValidMove(p.moves[moveIndex]);
    DamageBounds(p, s.opponentPokemon.value, p.moves[moveIndex]);
  }

  /** The computer's move keeps the invariant of a battle still on. */
  lemma CpuMovePreservesInvariant(s: BattleState, player: Pokemon, opponent: Pokemon, roll: real)
    requires BattleInvariant(s, player, opponent) && !s.isGameOver && 0.0 <= roll < 1.0
    ensures BattleInvariant(CpuMove(s, roll), player, opponent)
  {
    var cpu := s.opponentPokemon.value;
    var j := CpuMoveIndex(roll, |cpu.moves|);
    if j < |cpu.moves| {
      assert ValidMove(cpu.moves[j]);
      DamageBounds(cpu, s.playerPokemon.value, cpu.moves[j]);
    }
  }

  /** A whole attack keeps the invariant. */
  lemma AttackPreservesInvariant(s: BattleState, player: Pokemon, opponent: Pokemon, mode: GameMode,
                                 moveIndex: int, roll: real)
    requires BattleInvariant(s, player, opponent) && 0.0 <= roll < 1.0
    ensures BattleInvariant(Attack(s, mode, moveIndex, roll), player, opponent)
  {
    if CanAttack(s, moveIndex) {
      PlayerMovePreservesInvariant(s, player, opponent, moveIndex);
      var t := PlayerMove(s, moveIndex);
      if !t.isGameOver && mode == Pve {
        CpuMovePreservesInvariant(t, player, opponent, roll);
      }
    }
  }

  /** Neither side's hp ever increases, and neither drops below 0. */
  lemma AttackNeverRaisesHp(s: BattleState, player: Pokemon, opponent: Pokemon, mode: GameMode,
                            moveIndex: int, roll: real)
    requires BattleInvariant(s, player, opponent) && 0.0 <= roll < 1.0
    ensures var t := Attack(s, mode, moveIndex, roll);
            t.playerPokemon.Some? && t.opponentPokemon.Some? &&
            0 <= PlayerHp(t) <= PlayerHp(s) && 0 <= OpponentHp(t) <= OpponentHp(s)
  {
    if CanAttack(s, moveIndex) {
      var p := s.playerPokemon.value;
      assert ValidMove(p.moves[moveIndex]);
      DamageBounds(p, s.opponentPokemon.value, p.moves[moveIndex]);
      var t := PlayerMove(s, moveIndex);
      if !t.isGameOver && mode == Pve {
        var cpu := t.opponentPokemon.value;
        var j := CpuMoveIndex(roll, |cpu.moves|);
        if j < |cpu.moves| {
          assert ValidMove(cpu.moves[j]);
          DamageBounds(cpu, t.playerPokemon.value, cpu.moves[j]);
        }
      }
    }
  }

  /** A finished battle ignores every further button press. */
  lemma AttackAfterGameOverChangesNothing(s: BattleState, mode: GameMode, moveIndex: int, roll: real)
    requires SlotsCanDefend(s) && 0.0 <= roll < 1.0 && s.isGameOver
    ensures Attack(s, mode, moveIndex, roll) == s
  {
  }

  /** A press with an empty combatant slot, or naming a move the player's
      creature does not have, changes nothing. */
  lemma IncompletePressChangesNothing(s: BattleState, mode: GameMode, moveIndex: int, roll: real)
    requires SlotsCanDefend(s) && 0.0 <= roll < 1.0
    requires s.playerPokemon.None? || s.opponentPokemon.None? ||
             !(0 <= moveIndex < |s.playerPokemon.value.moves|)
    ensures Attack(s, mode, moveIndex, roll) == s
  {
  }

  /** The player's move logs "<player> used <move>!" and "It dealt <d>
      damage to <opponent>!" after all earlier lines, sets the opponent's hp
      to max(0, hp - d), and leaves the player's creature alone. */
  lemma PlayerMoveEffect(s: BattleState, moveIndex: int)
    requires CanAttack(s, moveIndex) && SlotsCanDefend(s)
    ensures var t := PlayerMove(s, moveIndex);
            var player, opponent := s.playerPokemon.value, s.opponentPokemon.value;
            var damage := PlayerDamage(s, moveIndex);
            t.battleLog == s.battleLog + [UsedMessage(player.name, player.moves[moveIndex].name),
                                          DealtMessage(damage, opponent.name)] &&
            t.playerPokemon == s.playerPokemon &&
            t.opponentPokemon == Some(WithHp(opponent, RemainingHp(opponent.stats.hp, damage))) &&
            t.currentTurn == s.currentTurn
  {
  }

  /** A knockout by the player ends the battle at once: the player wins,
      the computer does not move, and the log grows by one pair of lines. */
  lemma PlayerKnockoutEndsBattle(s: BattleState, mode: GameMode, moveIndex: int, roll: real)
    requires SlotsCanDefend(s) && 0.0 <= roll < 1.0 && CanAttack(s, moveIndex)
    requires PlayerDamage(s, moveIndex) >= OpponentHp(s)
    ensures var t := Attack(s, mode, moveIndex, roll);
            t == PlayerMove(s, moveIndex) && t.isGameOver && t.winner == Some(Player) &&
            t.playerPokemon == s.playerPokemon && |t.battleLog| == |s.battleLog| + 2
  {
  }

  /** If the player's move does not knock the opponent out, the battle goes
      on; in any mode but player-versus-CPU ('pvp' or the empty choice)
      nothing else happens. */
  lemma NoCpuMoveOutsidePve(s: BattleState, mode: GameMode, moveIndex: int, roll: real)
    requires SlotsCanDefend(s) && 0.0 <= roll < 1.0 && CanAttack(s, moveIndex) && mode != Pve
    requires PlayerDamage(s, moveIndex) < OpponentHp(s)
    ensures var t := Attack(s, mode, moveIndex, roll);
            t == PlayerMove(s, moveIndex) && !t.isGameOver && t.winner == s.winner
  {
  }

  /** The computer's move with at least one move to pick: the move at
      index floor(roll * count) is used, the player's hp becomes
      max(0, hp - d), the log gets that move's two lines, the opponent's
      creature is untouched, and the battle ends, won by the opponent,
      exactly when the player's hp reaches 0. */
  lemma CpuMoveEffect(s: BattleState, roll: real)
    requires SlotsCanDefend(s) && 0.0 <= roll < 1.0
    requires s.playerPokemon.Some? && s.opponentPokemon.Some? && |s.opponentPokemon.value.moves| > 0
    ensures var t := CpuMove(s, roll);
            var player, cpu := s.playerPokemon.value, s.opponentPokemon.value;
            var j := CpuMoveIndex(roll, |cpu.moves|);
            var damage := CalculateDamage(cpu, player, cpu.moves[j]);
            t.battleLog == s.battleLog + [UsedMessage(cpu.name, cpu.moves[j].name), DealtMessage(damage, player.name)] &&
            t.playerPokemon == Some(WithHp(player, RemainingHp(player.stats.hp, damage))) &&
            t.opponentPokemon == s.opponentPokemon &&
            (t.isGameOver <==> player.stats.hp - damage <= 0) &&
            t.winner == (if t.isGameOver then Some(Opponent) else None)
  {
  }

  /** Without a move to pick, the computer's reply fails before any state
      is written, so nothing changes. */
  lemma CpuWithoutMovesChangesNothing(s: BattleState, roll: real)
    requires SlotsCanDefend(s) && 0.0 <= roll < 1.0
    requires s.opponentPokemon.Some? && |s.opponentPokemon.value.moves| == 0
    ensures CpuMove(s, roll) == s
  {
  }

  /** Only the player's creature has move buttons, and the opponent's
      creature attacks only as the computer in 'pve' mode. In any other
      mode the player's creature is never hit, so the opponent never wins. */
  lemma OpponentNeverWinsOutsidePve(s: BattleState, mode: GameMode, moveIndex: int, roll: real)
    requires SlotsCanDefend(s) && 0.0 <= roll < 1.0 && mode != Pve
    requires s.winner != Some(Opponent)
    ensures Attack(s, mode, moveIndex, roll).winner != Some(Opponent)
    ensures Attack(s, mode, moveIndex, roll).playerPokemon == s.playerPokemon
  {
  }

  /** In player-versus-CPU mode a surviving opponent answers: the press
      is the player's move followed by the computer's. */
  lemma CpuRepliesInPve(s: BattleState, moveIndex: int, roll: real)
    requires SlotsCanDefend(s) && 0.0 <= roll < 1.0 && CanAttack(s, moveIndex)
    requires PlayerDamage(s, moveIndex) < OpponentHp(s)
    ensures Attack(s, Pve, moveIndex, roll) == CpuMove(PlayerMove(s, moveIndex), roll)
  {
  }

  /** Attacks only append to the log: earlier lines stay, and zero, two or
      four lines are added (none exactly when the press is ignored). */
  lemma AttackAppendsToLog(s: BattleState, mode: GameMode, moveIndex: int, roll: real)
    requires SlotsCanDefend(s) && 0.0 <= roll < 1.0
    ensures var t := Attack(s, mode, moveIndex, roll);
            |s.battleLog| <= |t.battleLog| && t.battleLog[..|s.battleLog|] == s.battleLog &&
            (|t.battleLog| - |s.battleLog| == 0 || |t.battleLog| - |s.battleLog| == 2 ||
             |t.battleLog| - |s.battleLog| == 4) &&
            (|t.battleLog| == |s.battleLog| <==> !CanAttack(s, moveIndex))
  {
    if CanAttack(s, moveIndex) {
      var t1 := PlayerMove(s, moveIndex);
      assert t1.battleLog[..|s.battleLog|] == s.battleLog;
      if !t1.isGameOver && mode == Pve {
        var t2 := CpuMove(t1, roll);
        assert t2.battleLog[..|t1.battleLog|] == t1.battleLog;
        assert t2.battleLog[..|s.battleLog|] == t1.battleLog[..|s.battleLog|];
      }
    }
  }

  /** The turn owner is never reassigned: it stays the player's. */
  lemma TurnIsNeverReassigned(s: BattleState, mode: GameMode, moveIndex: int, roll: real)
    requires SlotsCanDefend(s) && 0.0 <= roll < 1.0
    ensures Attack(s, mode, moveIndex, roll).currentTurn == s.currentTurn
  {
  }

  /** A sequence of button presses, each a move index and the roll the
      computer would use for its reply. */
  function Replay(s: BattleState, mode: GameMode, presses: seq<(int, real)>): BattleState
    requires SlotsCanDefend(s)
    requires forall k :: 0 <= k < |presses| ==> 0.0 <= presses[k].1 < 1.0
    decreases presses
  {
    if presses == [] then s
    else Replay(Attack(s, mode, presses[0].0, presses[0].1), mode, presses[1..])
  }

  /** Every battle that starts from two catalog creatures keeps the
      invariant whatever buttons are pressed and whatever the rolls. */
  lemma {:induction false} ReplayKeepsInvariant(s: BattleState, player: Pokemon, opponent: Pokemon,
                                                mode: GameMode, presses: seq<(int, real)>)
    requires BattleInvariant(s, player, opponent)
    requires forall k :: 0 <= k < |presses| ==> 0.0 <= presses[k].1 < 1.0
    ensures BattleInvariant(Replay(s, mode, presses), player, opponent)
    decreases presses
  {
    if presses != [] {
      AttackPreservesInvariant(s, player, opponent, mode, presses[0].0, presses[0].1);
      var t := Attack(s, mode, presses[0].0, presses[0].1);
      ReplayKeepsInvariant(t, player, opponent, mode, presses[1..]);
    }
  }

  /** Once over, a battle stays exactly as it is. */
  lemma {:induction false} GameOverIsFinal(s: BattleState, mode: GameMode, presses: seq<(int, real)>)
    requires SlotsCanDefend(s) && s.isGameOver
    requires forall k :: 0 <= k < |presses| ==> 0.0 <= presses[k].1 < 1.0
    ensures Replay(s, mode, presses) == s
    decreases presses
  {
    if presses != [] {
      GameOverIsFinal(s, mode, presses[1..]);
    }
  }

  /** A battle in progress, as the battle screen holds it. */
  class Battle {
    /** The two creatures as handed in when the battle began. */
    const startPlayer: Pokemon
    const startOpponent: Pokemon
    const gameMode: GameMode
    const playerMaxHp: int
    const opponentMaxHp: int

    var playerPokemon: Option<Pokemon>
    var opponentPokemon: Option<Pokemon>
    var currentTurn: Side
    var battleLog: seq<string>
    var isGameOver: bool
    var winner: Option<Side>

    function State(): BattleState
      reads this
    {
      BattleState(playerPokemon, opponentPokemon, currentTurn, battleLog, isGameOver, winner)
    }

    ghost predicate Valid()
      reads this
    {
      BattleInvariant(State(), startPlayer, startOpponent) &&
      playerMaxHp == startPlayer.stats.hp && opponentMaxHp == startOpponent.stats.hp
    }

    /** Starts a battle with copies of both creatures at full hp. */
    constructor (player: Pokemon, opponent: Pokemon, mode: GameMode)
      requires WellFormed(player) && WellFormed(opponent)
      ensures Valid()
      ensures State() == InitialState(player, opponent)
      ensures startPlayer == player && startOpponent == opponent && gameMode == mode
      ensures playerMaxHp == player.stats.hp && opponentMaxHp == opponent.stats.hp
    {
      startPlayer, startOpponent, gameMode := player, opponent, mode;
      playerMaxHp, opponentMaxHp := player.stats.hp, opponent.stats.hp;
      playerPokemon := Some(WithHp(player, player.stats.hp));
      opponentPokemon := Some(WithHp(opponent, opponent.stats.hp));
      currentTurn := Player;
      battleLog := [];
      isGameOver := false;
      winner := None;
    }

    /** The player's half of a button press; reports whether the opponent
        was knocked out. */
    method PlayerAttack(moveIndex: int) returns (opponentDefeated: bool)
      requires Valid() && CanAttack(State(), moveIndex)
      modifies this
      ensures Valid()
      ensures State() == PlayerMove(old(State()), moveIndex)
      ensures opponentDefeated == isGameOver
    {
      PlayerMovePreservesInvariant(State(), startPlayer, startOpponent, moveIndex);
      var player, opponent := playerPokemon.value, opponentPokemon.value;
      var move := player.moves[moveIndex];
      var damage := CalculateDamage(player, opponent, move);
      opponentPokemon := Some(WithHp(opponent, RemainingHp(opponent.stats.hp, damage)));
      battleLog := battleLog + [UsedMessage(player.name, move.name), DealtMessage(damage, opponent.name)];
      opponentDefeated := opponent.stats.hp - damage <= 0;
      if opponentDefeated {
        isGameOver := true;
        winner := Some(Player);
      }
    }

    /** The computer's reply; reports whether the player was knocked out. */
    method CpuAttack(roll: real) returns (playerDefeated: bool)
      requires Valid() && !isGameOver && 0.0 <= roll < 1.0
      modifies this
      ensures Valid()
      ensures State() == CpuMove(old(State()), roll)
      ensures playerDefeated == isGameOver
    {
      CpuMovePreservesInvariant(State(), startPlayer, startOpponent, roll);
      var player, cpu := playerPokemon.value, opponentPokemon.value;
      var j := CpuMoveIndex(roll, |cpu.moves|);
      if j >= |cpu.moves| {
        return false;
      }
      var move := cpu.moves[j];
      var damage := CalculateDamage(cpu, player, move);
      var newHp := RemainingHp(player.stats.hp, damage);
      playerPokemon := Some(WithHp(player, newHp));
      battleLog := battleLog + [UsedMessage(cpu.name, move.name), DealtMessage(damage, player.name)];
      isGameOver := newHp <= 0;
      winner := if newHp <= 0 then Some(Opponent) else None;
      playerDefeated := player.stats.hp - damage <= 0;
    }

    /** A press of the move button `moveIndex`; `roll` in [0, 1) stands for
        the random draw behind the computer's reply. Returns the side
        reported as the winner when this press ends the battle. */
    method HandleAttack(moveIndex: int, roll: real) returns (ended: Option<Side>)
      requires Valid() && 0.0 <= roll < 1.0
      modifies this
      ensures Valid()
      ensures State() == Attack(old(State()), gameMode, moveIndex, roll)
      ensures ended.Some? <==> !old(isGameOver) && isGameOver
      ensures ended.Some? ==> ended == winner
    {
      if isGameOver || playerPokemon.None? || opponentPokemon.None? {
        return None;
      }
      if !(0 <= moveIndex < |playerPokemon.value.moves|) {
        return None;
      }
      var opponentDefeated := PlayerAttack(moveIndex);
      if opponentDefeated {
        return Some(Player);
      }
      if gameMode == Pve {
        var playerDefeated := CpuAttack(roll);
        if playerDefeated {
          return Some(Opponent);
        }
      }
      return None;
    }
  }
}
