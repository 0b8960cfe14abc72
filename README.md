# Turn controller of a two-player board game

A Dafny model of `GameManager`, the entity that sequences turns in a
two-player (Blue and Red) tile game. Once per frame its `update` runs one tick
in a fixed order:

1. the inter-turn timer is decreased by the frame's elapsed time and clamped at zero;
2. if setup is not finished and the board reports every tile in play as
   revealed, setup is marked finished and the setup handler refreshes the board
   and lines up Blue;
3. a pending "turn ended" flag is consumed: the timer is re-armed with
   `time_between_turns + next_turn_delay`, the other player is lined up (Red
   after Blue, Blue otherwise), the current slot is emptied and highlights are
   refreshed;
4. if nobody is playing and the timer is at or below zero, the lined-up player
   (possibly nobody) moves into the current slot and the board is refreshed.

`start_game` hides the main menu, marks setup as pending and asks the board to
reveal its tiles; `on_game_end` shows the menu again.

The project has three modules:

- `TurnRules` (`turn_rules.dfy`): the controller's turn state as a value
  (`TurnState`) and `Tick`, whose contract states the
  outcome of a whole tick in terms of the state before it: which handlers run,
  the board calls in order, and every field.
- `TurnRuns` (`turn_runs.dfy`): `Run`, ticking once per frame over a sequence of
  frames, and the properties that span several ticks: the timer never goes
  negative, setup completes at most once, the next turn starts on exactly the
  tick whose elapsed time drains the delay, turns alternate, exactly one player
  slot stays filled once setup has finished (and where that fails), and an
  example session.
- `Entities` (`game_manager.dfy`): the class `GameManager` with the source's
  fields, updated in place by methods that mirror the source's handlers.
  `Update` is proved to leave the fields as `Tick` says. The board is reduced to
  the two counts read from it (parameters of `Update`) and a ghost log
  `boardCalls` of the calls made on it. The main-menu entities are reduced to an
  `array<bool>` of their `active` flags.

Durations are exact `real`s, so 0.2 is represented exactly.

Four behaviours of `update` worth noting:

- The turn-start check does not consult `board_setup_finished`. Before setup
  completes, every tick with nobody playing and an expired timer runs the
  turn-start handler. In a fresh session nobody is lined up yet, so that
  handler copies an empty `next_player` into `current_player` and still makes
  its two board calls (`TurnRules.TurnStartBeforeSetup`). If someone is lined
  up (after a restart between turns, or after a turn end signalled before
  setup), that player becomes current before setup completes
  (`TurnRules.LinedUpStartsBeforeSetup`). Turns are therefore not gated on
  setup.
- The turn-start check is `turn_end_timer <= 0`, so a re-arm delay of zero or
  less starts the next turn in the same tick as the turn end.
- `time_between_turns` and `next_turn_delay` are plain fields with no checks.
  The properties that need a positive or non-negative delay require it.
- Once setup has finished, exactly one of `current_player` and `next_player` is
  set, and every tick keeps it so. This holds only within one session. It fails
  after a restart: `start_game` resets only the setup flag, so finishing setup
  while a player is current also lines up Blue. It also fails after a turn end
  signalled before setup completes, when the inter-turn delay runs out before
  setup completes: Blue is then both current and lined up.

## Model

| member | source | states |
|---|---|---|
| `TurnRules.Initial` | entities/game_manager.py:15-38 | a new manager has setup pending, both player slots empty, no pending turn end, a zero timer, zero extra delay and 0.2 between turns |
| `TurnRules.NextAfter` | entities/game_manager.py:93-96 | the player lined up after a turn is never the one who just played (the opponent), and Blue when the slot was empty |
| `TurnRules.DecayTimer` | entities/game_manager.py:68-71 | the decayed timer is never negative, is at least `timer - dt`, and equals either zero or `timer - dt`, i.e. `max(0, timer - dt)` |
| `TurnRules.Tick` | entities/game_manager.py:49-66 | after a tick: setup is finished iff it was or the board is fully revealed; no turn end is pending; the timer is the re-arm delay if a turn ended, else the decayed timer; a turn starts iff nobody is playing at the check and that timer is `<= 0`; the board calls are the setup pair, then the turn-end highlight, then the turn-start pair, each exactly when its handler runs; the durations are unchanged |
| `TurnRules.NoStartInTurnEndTick` | entities/game_manager.py:59-66 | a tick that consumes a turn end with a positive re-arm delay starts no turn: the slot stays empty, the opponent waits and the timer holds the delay |
| `TurnRules.SetupRunsOnce` | entities/game_manager.py:53-56 | once setup has finished, a tick does not run the setup handler again and does not touch `next` on its behalf |
| `TurnRules.TurnStartBeforeSetup` | entities/game_manager.py:64-66 | before setup, with nobody lined up and an expired timer, the turn-start handler still runs: it makes its two board calls and leaves both slots empty |
| `TurnRules.LinedUpStartsBeforeSetup` | entities/game_manager.py:64-66 | before setup, with nobody playing, a lined-up player and an expired timer, the turn-start handler makes that player current, empties `next` and makes its two board calls, while setup stays pending |
| `TurnRuns.Run` | entities/game_manager.py:49-66 | a run of ticks never changes the two configured durations and leaves no turn end pending |
| `TurnRuns.TimerStaysNonNegative` | entities/game_manager.py:68-71 | with a non-negative re-arm delay, the timer is never negative after any run of ticks that starts from a non-negative timer |
| `TurnRuns.NoSetupAfterFinished` | entities/game_manager.py:53-56 | after setup has finished, no tick of any run runs the setup handler and setup stays finished |
| `TurnRuns.SetupAtMostOnce` | entities/game_manager.py:53-56 | in any run of ticks the setup handler runs at most once, and, from a pending setup, exactly once iff setup is finished at the end |
| `TurnRuns.WaitingOnlyDrainsTimer` | entities/game_manager.py:49-66 | between turns, while the total elapsed time stays below the timer, ticks only run the timer down: no turn starts and no board call is made |
| `TurnRuns.StartsWhenDrained` | entities/game_manager.py:49-66 | between turns, the tick whose elapsed time makes the total reach the timer starts the lined-up player's turn, leaves the timer at zero and makes the two turn-start board calls |
| `TurnRuns.TurnPassesToOpponent` | entities/game_manager.py:88-111 | after a turn end with a positive delay, the current slot stays empty on every tick before the elapsed time reaches the delay and holds the opponent on the tick where it does |
| `TurnRuns.TurnsAlternate` | entities/game_manager.py:88-107 | two turn changes in a row hand the turn to the opponent and back (Blue, Red, Blue) |
| `TurnRuns.OneSlotEstablished` | entities/game_manager.py:49-66 | from a session with setup pending, nobody playing and no turn end pending, the tick that completes setup leaves exactly one player slot filled |
| `TurnRuns.OneSlotPreserved` | entities/game_manager.py:49-66 | once setup has finished, a tick that starts with exactly one player slot filled ends with exactly one filled |
| `TurnRuns.OneSlotHoldsOverRuns` | entities/game_manager.py:49-66 | once setup has finished, every run of ticks keeps exactly one player slot filled |
| `TurnRuns.RestartWhilePlayingFillsBothSlots` | entities/game_manager.py:53-56 | after a restart (only the setup flag reset, lines 73-78) while a player is current, completing setup leaves that player current and Blue lined up, so both slots are filled |
| `TurnRuns.EarlyTurnEndLinesUpBlueTwice` | entities/game_manager.py:49-111 | a turn end before setup lines up Blue, a drained timer makes Blue current while the board is still revealing, and setup completion lines Blue up again: Blue is both current and next |
| `TurnRuns.EndToEndExample` | entities/game_manager.py:49-111 | with 0.2 between turns: Blue starts on the first tick after reveal; a turn end arms 0.2 and lines up Red; three ticks of 0.05 leave the slot empty and the fourth starts Red |
| `Entities.GameManager.constructor` | entities/game_manager.py:15-38 | the new manager's turn state is `Initial()`, the board log is empty and the menu flags are the given ones |
| `Entities.GameManager.Update` | entities/game_manager.py:49-66 | the fields after the in-place handlers run in order are exactly `Tick` of the old fields, and the board log grows by `Tick`'s calls |
| `Entities.GameManager.UpdateTimers` | entities/game_manager.py:68-71 | only the timer changes, to `DecayTimer` of its old value, so it is never negative |
| `Entities.GameManager.StartGame` | entities/game_manager.py:73-78 | every menu flag is off, setup is pending, the board log grows by `RevealTiles`, and the player slots, timer and turn-end flag are unchanged |
| `Entities.GameManager.OnBoardSetupFinished` | entities/game_manager.py:80-86 | Blue is lined up and the board log grows by `UpdateValidTiles` then `SetHighlights`; nothing else changes |
| `Entities.GameManager.OnTurnEnded` | entities/game_manager.py:88-102 | the timer is the sum of the two durations, Red is lined up if Blue was playing and Blue otherwise, the current slot is empty, and only `SetHighlights` is logged |
| `Entities.GameManager.OnTurnStart` | entities/game_manager.py:104-111 | the old lined-up player (possibly none) is current, `next` is empty, and `UpdateValidTiles` then `SetHighlights` are logged |
| `Entities.GameManager.SignalTurnEnded` | entities/game_manager.py:33 | the turn-ended flag is set and nothing else changes |
| `Entities.GameManager.OnGameEnd` | entities/game_manager.py:113-114 | every menu flag is on, and the turn state and board log are unchanged |
| `Entities.GameManager.HideMainMenu` | entities/game_manager.py:116-118 | every menu entity's flag is off |
| `Entities.GameManager.ShowMainMenu` | entities/game_manager.py:120-122 | every menu entity's flag is on |
| `Entities.HandOverToRed` | entities/game_manager.py:49-111 | from Blue playing with default durations, a turn end and ticks totalling 0.2 leave Red playing and everything else as initially set up |

## Left out

- `start` (entities/game_manager.py:40-47) looks up the board and the two players by name and collects the entities tagged `MainMenu` from the scene. The model takes the menu flags as a constructor parameter, represents the players by the `Blue`/`Red` values and passes the board's counts to `Update`.
- The engine's `Entity` base class and its runtime are not part of this model.
- The board's own behaviour behind `reveal_tiles`, `update_valid_tiles_for_summoning` and `set_tile_highlights` is not modelled; each call is recorded only as an entry in the ghost log `boardCalls`.
- A missing board (`board` still `None`) makes the source fail with an attribute error on the first tick; the model always has the board's counts.
- Floating-point rounding of the elapsed time and of the 0.2 default is not modelled; durations are exact reals.
- The gameplay code that sets `turn_ended` is not part of this model; `SignalTurnEnded` stands in for it.
- Players are compared by identity in the source and are assumed truthy; the model's `Some(Blue)`/`Some(Red)` make the same distinctions.
- The one-slot property is established by the setup-completion tick of a session that starts with nobody playing (`OneSlotEstablished`) and preserved from there (`OneSlotPreserved`, `OneSlotHoldsOverRuns`); a restart mid-session breaks it, and so does a turn end signalled before setup when the inter-turn delay runs out before setup completes (see the two counterexample lemmas), and the source does not guard against either.
- Main-menu entities are reduced to their `active` flags; whether two entries alias the same entity is not modelled.
