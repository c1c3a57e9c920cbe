/** The game screen around a battle: choosing a creature, the checks before
    a battle starts, and the win/loss tally of the two players. */
module GameScreen {
  import opened PokemonTypes

  /** One entry of the catalog's creature list. */
  datatype ListEntry = ListEntry(name: string, url: string)

  /** A player's tally and display name. */
  datatype PlayerStats = PlayerStats(wins: nat, losses: nat, name: string)

  /** The position of the first entry called `name`, or -1 when there is none. */
  function FindIndex(list: seq<ListEntry>, name: string): (i: int)
    ensures -1 <= i < |list|
    ensures i >= 0 ==> list[i].name == name && forall k :: 0 <= k < i ==> list[k].name != name
    ensures i == -1 <==> forall k :: 0 <= k < |list| ==> list[k].name != name
  {
    if list == [] then -1
    else if list[0].name == name then 0
    else
      var rest := FindIndex(list[1..], name);
      if rest == -1 then -1 else rest + 1
  }

  /** The catalog id requested for a chosen name: the position of its
      first entry plus 1, so 0 for a name that is not in the list. */
  function SelectedId(list: seq<ListEntry>, name: string): (id: int)
    ensures 0 <= id <= |list|
    ensures id == 0 <==> forall k :: 0 <= k < |list| ==> list[k].name != name
    ensures id > 0 ==> list[id - 1].name == name
    ensures id > 0 ==> forall k :: 0 <= k < id - 1 ==> list[k].name != name
  {
    FindIndex(list, name) + 1
  }

  /** The alert for a missing creature or player name. */
  const SelectPrompt := "Please select a Pokémon and enter your name"

  /** The alert for a missing second name in player-versus-player mode. */
  const Player2Prompt := "Please enter Player 2 name for PvP mode"

  /** The alert shown when a battle may not start yet, if any. The second
      player's name is asked for only in 'pvp' mode, and only once the
      creature and the first name are there; no alert means the form is
      complete. */
  function StartBattleRefusal(hasSelection: bool, playerName: string, mode: GameMode, player2Name: string)
    : (alert: Option<string>)
    ensures alert == None || alert == Some(SelectPrompt) || alert == Some(Player2Prompt)
    ensures alert == Some(Player2Prompt) <==>
              hasSelection && playerName != "" && mode == Pvp && player2Name == ""
    ensures alert == None <==> hasSelection && playerName != "" && (mode == Pvp ==> player2Name != "")
  {
    if !hasSelection || playerName == "" then Some(SelectPrompt)
    else if mode == Pvp && player2Name == "" then Some(Player2Prompt)
    else None
  }

  /** The start button's disabled condition: it is disabled exactly when
      the start handler would refuse with an alert. */
  predicate StartButtonDisabled(hasSelection: bool, playerName: string, mode: GameMode, player2Name: string)
    ensures StartButtonDisabled(hasSelection, playerName, mode, player2Name) <==>
            StartBattleRefusal(hasSelection, playerName, mode, player2Name).Some?
  {
    !hasSelection || playerName == "" || (mode == Pvp && player2Name == "")
  }

  /** The second player's display name for a battle: the entered name in
      player-versus-player mode; "CPU" in every other mode, the empty
      choice included. */
  function SecondPlayerName(mode: GameMode, player2Name: string): (name: string)
    ensures mode == Pvp ==> name == player2Name
    ensures mode != Pvp ==> name == "CPU"
  {
    if mode == Pvp then player2Name else "CPU"
  }

  /** One player's wins are the other's losses. */
  predicate Mirrored(p1: PlayerStats, p2: PlayerStats)
  {
    p1.wins == p2.losses && p1.losses == p2.wins
  }

  /** The tallies after a battle won by `winner`: exactly one game more
      for each player, a win for the winner and a loss for the other, names
      unchanged; mirrored tallies stay mirrored. */
  function RecordResult(p1: PlayerStats, p2: PlayerStats, winner: Side): (r: (PlayerStats, PlayerStats))
    ensures r.0.name == p1.name && r.1.name == p2.name
    ensures r.0.wins + r.0.losses == p1.wins + p1.losses + 1
    ensures r.1.wins + r.1.losses == p2.wins + p2.losses + 1
    ensures winner == Player <==> r.0.wins == p1.wins + 1
    ensures winner == Player <==> r.1.losses == p2.losses + 1
    ensures winner == Opponent <==> r.0.losses == p1.losses + 1
    ensures winner == Opponent <==> r.1.wins == p2.wins + 1
    ensures Mirrored(p1, p2) ==> Mirrored(r.0, r.1)
  {
    match winner
    case Player => (p1.(wins := p1.wins + 1), p2.(losses := p2.losses + 1))
    case Opponent => (p1.(losses := p1.losses + 1), p2.(wins := p2.wins + 1))
  }

  /** The tallies after a reset: no games counted for either player, which
      is a mirrored pair, and both names kept. */
  function ResetTally(p1: PlayerStats, p2: PlayerStats): (r: (PlayerStats, PlayerStats))
    ensures r.0.wins + r.0.losses == 0 && r.1.wins + r.1.losses == 0
    ensures Mirrored(r.0, r.1)
    ensures r.0.name == p1.name && r.1.name == p2.name
  {
    (PlayerStats(0, 0, p1.name), PlayerStats(0, 0, p2.name))
  }

  /** What changes the tallies: the end of a battle, a reset, or the start
      of a battle, which renames the players. */
  datatype TallyEvent = BattleEnded(winner: Side) | StatsReset | BattleStarted(name1: string, name2: string)

  function ApplyEvent(tally: (PlayerStats, PlayerStats), e: TallyEvent): (PlayerStats, PlayerStats)
  {
    match e
    case BattleEnded(w) => RecordResult(tally.0, tally.1, w)
    case StatsReset => ResetTally(tally.0, tally.1)
    case BattleStarted(n1, n2) => (tally.0.(name := n1), tally.1.(name := n2))
  }

  function ApplyEvents(tally: (PlayerStats, PlayerStats), events: seq<TallyEvent>): (PlayerStats, PlayerStats)
    decreases |events|
  {
    if events == [] then tally else ApplyEvent(ApplyEvents(tally, events[..|events| - 1]), events[|events| - 1])
  }

  /** Whatever happens, one player's wins stay the other's losses. */
  lemma {:induction false} TallyStaysMirrored(tally: (PlayerStats, PlayerStats), events: seq<TallyEvent>)
    requires Mirrored(tally.0, tally.1)
    ensures Mirrored(ApplyEvents(tally, events).0, ApplyEvents(tally, events).1)
    decreases |events|
  {
    if events != [] {
      TallyStaysMirrored(tally, events[..|events| - 1]);
    }
  }

  /** The number of battles in `events` won by `side`. */
  function Wins(events: seq<TallyEvent>, side: Side): nat
    decreases |events|
  {
    if events == [] then 0
    else Wins(events[..|events| - 1], side) + (if events[|events| - 1] == BattleEnded(side) then 1 else 0)
  }

  /** Since the last reset, the first player's wins and losses count the
      battles the player and the opponent won. */
  lemma {:induction false} TallyCountsBattles(tally: (PlayerStats, PlayerStats), events: seq<TallyEvent>)
    requires tally.0.wins == 0 && tally.0.losses == 0
    requires forall k :: 0 <= k < |events| ==> !events[k].StatsReset?
    ensures ApplyEvents(tally, events).0.wins == Wins(events, Player)
    ensures ApplyEvents(tally, events).0.losses == Wins(events, Opponent)
    decreases |events|
  {
    if events != [] {
      TallyCountsBattles(tally, events[..|events| - 1]);
    }
  }

  /** The game screen's state. */
  class Game {
    var pokemonList: seq<ListEntry>
    var selectedPokemon: Option<Pokemon>
    var opponentPokemon: Option<Pokemon>
    var gameMode: GameMode
    var playerName: string
    var player2Name: string
    var isBattleStarted: bool
    var player1Stats: PlayerStats
    var player2Stats: PlayerStats

    /** The tallies mirror each other, and a running battle has both creatures. */
    ghost predicate Valid()
      reads this
    {
      Mirrored(player1Stats, player2Stats) &&
      (isBattleStarted ==> selectedPokemon.Some? && opponentPokemon.Some?)
    }

    constructor ()
      ensures Valid()
      ensures pokemonList == [] && selectedPokemon == None && opponentPokemon == None
      ensures gameMode == Pve && playerName == "" && player2Name == "" && !isBattleStarted
      ensures player1Stats == PlayerStats(0, 0, "") && player2Stats == PlayerStats(0, 0, "")
    {
      pokemonList := [];
      selectedPokemon, opponentPokemon := None, None;
      gameMode := Pve;
      playerName, player2Name := "", "";
      isBattleStarted := false;
      player1Stats := PlayerStats(0, 0, "");
      player2Stats := PlayerStats(0, 0, "");
    }

    /** The catalog's creature list has arrived. */
    method ReceivePokemonList(list: seq<ListEntry>)
      requires Valid()
      modifies this`pokemonList
      ensures Valid() && pokemonList == list
    {
      pokemonList := list;
    }

    /** The mode selector changed (`Unselected` is its empty option). */
    method SetGameMode(mode: GameMode)
      requires Valid()
      modifies this`gameMode
      ensures Valid() && gameMode == mode
    {
      gameMode := mode;
    }

    method SetPlayerName(name: string)
      requires Valid()
      modifies this`playerName
      ensures Valid() && playerName == name
    {
      playerName := name;
    }

    method SetPlayer2Name(name: string)
      requires Valid()
      modifies this`player2Name
      ensures Valid() && player2Name == name
    {
      player2Name := name;
    }

    /** A creature was chosen by name; `fetched` is what the catalog returned
        for the requested id (None when the request failed). Returns that id. */
    method HandlePokemonSelect(pokemonName: string, fetched: Option<Pokemon>) returns (id: int)
      requires Valid()
      modifies this`selectedPokemon
      ensures Valid()
      ensures id == SelectedId(pokemonList, pokemonName)
      ensures selectedPokemon == if fetched.Some? then fetched else old(selectedPokemon)
    {
      id := FindIndex(pokemonList, pokemonName) + 1;
      if fetched.Some? {
        selectedPokemon := fetched;
      }
    }

    /** The start button was pressed; `opponent` is the random creature the
        catalog returned (None when the request failed). Returns whether the
        battle started; when it did not, nothing changed. */
    method HandleStartBattle(opponent: Option<Pokemon>) returns (started: bool)
      requires Valid()
      modifies this
      ensures Valid()
      ensures started <==> !old(StartButtonDisabled(selectedPokemon.Some?, playerName, gameMode, player2Name))
                           && opponent.Some?
      ensures !started ==> unchanged(this)
      ensures started ==> opponentPokemon == opponent && isBattleStarted &&
                          player1Stats == old(player1Stats).(name := playerName) &&
                          player2Stats == old(player2Stats).(name := SecondPlayerName(gameMode, player2Name))
      ensures pokemonList == old(pokemonList) && selectedPokemon == old(selectedPokemon)
      ensures gameMode == old(gameMode) && playerName == old(playerName) && player2Name == old(player2Name)
    {
      var alert := StartBattleRefusal(selectedPokemon.Some?, playerName, gameMode, player2Name);
      if alert.Some? || opponent.None? {
        return false;
      }
      opponentPokemon := opponent;
      isBattleStarted := true;
      player1Stats := player1Stats.(name := playerName);
      player2Stats := player2Stats.(name := SecondPlayerName(gameMode, player2Name));
      return true;
    }

    /** The battle reported its winner: record it and go back to selection. */
    method HandleBattleEnd(winner: Side)
      requires Valid()
      modifies this
      ensures Valid()
      ensures (player1Stats, player2Stats) == RecordResult(old(player1Stats), old(player2Stats), winner)
      ensures !isBattleStarted && selectedPokemon == None && opponentPokemon == None
      ensures pokemonList == old(pokemonList) && gameMode == old(gameMode)
      ensures playerName == old(playerName) && player2Name == old(player2Name)
    {
      isBattleStarted := false;
      if winner == Player {
        player1Stats := player1Stats.(wins := player1Stats.wins + 1);
        player2Stats := player2Stats.(losses := player2Stats.losses + 1);
      } else {
        player1Stats := player1Stats.(losses := player1Stats.losses + 1);
        player2Stats := player2Stats.(wins := player2Stats.wins + 1);
      }
      selectedPokemon := None;
      opponentPokemon := None;
    }

    /** Both tallies back to 0, names kept. */
    method HandleResetStats()
      requires Valid()
      modifies this`player1Stats, this`player2Stats
      ensures Valid()
      ensures (player1Stats, player2Stats) == ResetTally(old(player1Stats), old(player2Stats))
    {
      player1Stats := PlayerStats(0, 0, player1Stats.name);
      player2Stats := PlayerStats(0, 0, player2Stats.name);
    }
  }
}
