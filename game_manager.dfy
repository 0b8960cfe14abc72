/** The game manager entity: the turn controller as an object whose handlers
    update its fields in place. The board is reduced to the two counts it is
    read for (passed to `Update`) and a ghost log of the calls made on it; the
    main-menu entities are reduced to their `active` flags. */
module Entities {
  import opened TurnRules

  class GameManager {
    var boardSetupFinished: bool
    var currentPlayer: Option<Player>
    var nextPlayer: Option<Player>
    var turnEnded: bool
    var nextTurnDelay: real
    var timeBetweenTurns: real
    var turnEndTimer: real

    /** The `active` flag of each main-menu entity, found once at scene start. */
    const mainMenu: array<bool>

    /** Every call made on the board so far, oldest first. */
    ghost var boardCalls: seq<BoardCall>

    /** The turn-related fields as one value. */
    function State(): TurnState
      reads this
    {
      TurnState(boardSetupFinished, currentPlayer, nextPlayer, turnEnded,
                turnEndTimer, timeBetweenTurns, nextTurnDelay)
    }

    /** A manager that has not started a game: no players, no pending turn end,
        an unarmed timer and the default durations. */
    constructor (menu: array<bool>)
      ensures State() == Initial()
      ensures mainMenu == menu && boardCalls == []
    {
      boardSetupFinished := false;
      currentPlayer := None;
      nextPlayer := None;
      turnEnded := false;
      nextTurnDelay := 0.0;
      timeBetweenTurns := DefaultTimeBetweenTurns;
      turnEndTimer := 0.0;
      mainMenu := menu;
      boardCalls := [];
    }

    /** One tick: decay the timer, detect setup completion, consume a turn end,
        start a turn. `dt` is the frame's elapsed time; `revealed` and `inPlay`
        are the board's counts read during the tick. The new state and the
        board calls are those of `Tick`; the menu is untouched. */
    method Update(dt: real, revealed: int, inPlay: int)
      modifies this
      ensures State() == Tick(old(State()), Frame(dt, revealed, inPlay)).state
      ensures boardCalls == old(boardCalls) + Tick(old(State()), Frame(dt, revealed, inPlay)).calls
    {
      ghost var before := State();
      ghost var callsBefore := boardCalls;
      UpdateTimers(dt);

      if !boardSetupFinished {
        if revealed == inPlay {
          boardSetupFinished := true;
          OnBoardSetupFinished();
        }
      }

      if turnEnded {
        turnEnded := false;
        OnTurnEnded();
      }

      if currentPlayer.None? {
        if turnEndTimer <= 0.0 {
          OnTurnStart();
        }
      }
      assert boardCalls == callsBefore + Tick(before, Frame(dt, revealed, inPlay)).calls;
    }

    /** Runs the inter-turn timer down by `dt`, never below zero. */
    method UpdateTimers(dt: real)
      modifies this`turnEndTimer
      ensures turnEndTimer == DecayTimer(old(turnEndTimer), dt)
      ensures turnEndTimer >= 0.0
    {
      turnEndTimer := turnEndTimer - dt;
      if turnEndTimer < 0.0 {
        turnEndTimer := 0.0;
      }
    }

    /** Hides the menu and asks the board to reveal its tiles; setup is
        pending again. Players, timer and turn-end flag are untouched. */
    method StartGame()
      modifies this`boardSetupFinished, this`boardCalls, mainMenu
      ensures State() == old(State()).(setupFinished := false)
      ensures boardCalls == old(boardCalls) + [RevealTiles]
      ensures forall i :: 0 <= i < mainMenu.Length ==> !mainMenu[i]
    {
      HideMainMenu();

      boardSetupFinished := false;
      boardCalls := boardCalls + [RevealTiles];
    }

    /** Recomputes the board's valid tiles and highlights, then lines up Blue
        as the first player. */
    method OnBoardSetupFinished()
      modifies this`nextPlayer, this`boardCalls
      ensures nextPlayer == Some(Blue)
      ensures boardCalls == old(boardCalls) + [UpdateValidTiles, SetHighlights]
    {
      boardCalls := boardCalls + [UpdateValidTiles];
      boardCalls := boardCalls + [SetHighlights];

      nextPlayer := Some(Blue);
    }

    /** Arms the inter-turn timer, lines up the other player (Blue unless Blue
        was playing), empties the current slot and refreshes highlights. */
    method OnTurnEnded()
      modifies this`turnEndTimer, this`nextPlayer, this`currentPlayer, this`boardCalls
      ensures turnEndTimer == timeBetweenTurns + nextTurnDelay
      ensures nextPlayer == Some(NextAfter(old(currentPlayer)))
      ensures currentPlayer == None
      ensures boardCalls == old(boardCalls) + [SetHighlights]
    {
      turnEndTimer := timeBetweenTurns + nextTurnDelay;

      if currentPlayer == Some(Blue) {
        nextPlayer := Some(Red);
      } else {
        nextPlayer := Some(Blue);
      }

      currentPlayer := None;

      boardCalls := boardCalls + [SetHighlights];
    }

    /** Moves the lined-up player (possibly none) into the current slot,
        empties `next`, and refreshes the board. */
    method OnTurnStart()
      modifies this`currentPlayer, this`nextPlayer, this`boardCalls
      ensures currentPlayer == old(nextPlayer) && nextPlayer == None
      ensures boardCalls == old(boardCalls) + [UpdateValidTiles, SetHighlights]
    {
      currentPlayer := nextPlayer;
      nextPlayer := None;

      boardCalls := boardCalls + [UpdateValidTiles];
      boardCalls := boardCalls + [SetHighlights];
    }

    /** Set by gameplay when the current player's turn is over; consumed by the
        next `Update`. */
    method SignalTurnEnded()
      modifies this`turnEnded
      ensures turnEnded
    {
      turnEnded := true;
    }

    /** Shows the menu again; no turn state is reset. */
    method OnGameEnd()
      modifies mainMenu
      ensures forall i :: 0 <= i < mainMenu.Length ==> mainMenu[i]
      ensures State() == old(State()) && boardCalls == old(boardCalls)
    {
      ShowMainMenu();
    }

    method HideMainMenu()
      modifies mainMenu
      ensures forall i :: 0 <= i < mainMenu.Length ==> !mainMenu[i]
    {
      for i := 0 to mainMenu.Length
        invariant forall j :: 0 <= j < i ==> !mainMenu[j]
      {
        mainMenu[i] := false;
      }
    }

    method ShowMainMenu()
      modifies mainMenu
      ensures forall i :: 0 <= i < mainMenu.Length ==> mainMenu[i]
    {
      for i := 0 to mainMenu.Length
        invariant forall j :: 0 <= j < i ==> mainMenu[j]
      {
        mainMenu[i] := true;
      }
    }
  }

  /** A client that drives a manager through an example session: time between
      turns 0.2, no extra delay, a board of 30 tiles fully revealed before the
      first tick. Setup completes and Blue starts on the first tick. */
  method ExampleSession()
  {
    var menu := new bool[3];
    var manager := new GameManager(menu);
    manager.StartGame();
    assert !menu[0] && !menu[1] && !menu[2];
    assert manager.boardCalls == [RevealTiles];

    ghost var ready := manager.State();
    assert SetupCompletes(ready, Frame(0.01, 30, 30)) && TurnStarts(ready, Frame(0.01, 30, 30));
    manager.Update(0.01, 30, 30);
    assert manager.boardSetupFinished && manager.currentPlayer == Some(Blue);
    assert manager.turnEndTimer == 0.0 && manager.nextPlayer == None;
    assert manager.boardCalls ==
      [RevealTiles] + [UpdateValidTiles, SetHighlights] + [UpdateValidTiles, SetHighlights];

    HandOverToRed(manager);

    manager.OnGameEnd();
    assert menu[0] && menu[1] && menu[2];
    assert manager.currentPlayer == Some(Red);
  }

  /** The rest of the example session: Blue ends the turn, the timer is armed to
      0.2 and Red is lined up; three ticks of 0.05 leave the slot empty and the
      fourth starts Red's turn. */
  method HandOverToRed(manager: GameManager)
    requires manager.State() == Initial().(setupFinished := true, current := Some(Blue))
    modifies manager
    ensures manager.State() == Initial().(setupFinished := true, current := Some(Red))
  {
    manager.SignalTurnEnded();
    manager.Update(0.01, 30, 30);
    assert manager.turnEndTimer == 0.2;
    assert manager.currentPlayer == None && manager.nextPlayer == Some(Red);

    ghost var waiting := manager.State();
    assert !TurnStarts(waiting, Frame(0.05, 30, 30));
    manager.Update(0.05, 30, 30);
    assert manager.State() == waiting.(timer := 0.15);
    manager.Update(0.05, 30, 30);
    assert manager.State() == waiting.(timer := 0.1);
    manager.Update(0.05, 30, 30);
    assert manager.State() == waiting.(timer := 0.05);
    assert TurnStarts(manager.State(), Frame(0.05, 30, 30));
    manager.Update(0.05, 30, 30);
    assert manager.currentPlayer == Some(Red) && manager.nextPlayer == None;
  }
}
