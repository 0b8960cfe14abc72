/** The turn controller of a two-player board game, one tick at a time.

    This module gives the controller's state as a value and the effect of one
    `update` tick on it, as pure functions. The class `Entities.GameManager`
    updates its fields in place and is proved against `Tick`.
 */
module TurnRules {

  datatype Option<T> = None | Some(value: T)

  /** The two players; the controller only ever compares them. */
  datatype Player = Blue | Red

  /** The calls the controller makes on the board, in the order it makes them. */
  datatype BoardCall = RevealTiles | UpdateValidTiles | SetHighlights

  /** Everything the controller keeps about turns (all its fields except the
      board and the menu). Durations are exact reals. */
  datatype TurnState = TurnState(
    setupFinished: bool,
    current: Option<Player>,
    next: Option<Player>,
    turnEnded: bool,
    timer: real,
    timeBetweenTurns: real,
    nextTurnDelay: real)

  /** What one tick reads from the outside world: the elapsed time and the
      board's reveal progress. */
  datatype Frame = Frame(dt: real, revealed: int, inPlay: int)

  /** A new state together with the board calls made while reaching it. */
  datatype Step = Step(state: TurnState, calls: seq<BoardCall>)

  const DefaultTimeBetweenTurns: real := 0.2

  /** The state a freshly constructed controller starts in. */
  function Initial(): (t: TurnState)
    ensures !t.setupFinished && !t.turnEnded
    ensures t.current == None && t.next == None
    ensures t.timer == 0.0 && t.nextTurnDelay == 0.0
    ensures t.timeBetweenTurns == DefaultTimeBetweenTurns
  {
    TurnState(false, None, None, false, 0.0, DefaultTimeBetweenTurns, 0.0)
  }

  function Opponent(p: Player): Player
  {
    match p
    case Blue => Red
    case Red => Blue
  }

  /** Who is lined up after the player `current` finishes: Red after Blue, and
      Blue in every other case, an empty slot included. */
  function NextAfter(current: Option<Player>): (p: Player)
    ensures current.Some? ==> p != current.value && p == Opponent(current.value)
    ensures current.None? ==> p == Blue
  {
    if current == Some(Blue) then Red else Blue
  }

  /** The inter-turn timer after `dt` has elapsed: decreased by `dt` and clamped
      at zero. */
  function DecayTimer(timer: real, dt: real): (r: real)
    ensures r >= 0.0 && r >= timer - dt
    ensures r == 0.0 || r == timer - dt
  {
    var left := timer - dt;
    if left < 0.0 then 0.0 else left
  }

  /** The delay the timer is armed with when a turn ends. */
  function RearmDelay(t: TurnState): real
  {
    t.timeBetweenTurns + t.nextTurnDelay
  }

  // Which handlers a tick runs, stated in terms of the state before the tick.

  /** The setup handler runs when setup was not finished and the board reports
      every tile in play as revealed. */
  predicate SetupCompletes(t: TurnState, f: Frame)
  {
    !t.setupFinished && f.revealed == f.inPlay
  }

  /** The timer value the turn-start check reads: re-armed if a turn ended,
      otherwise decayed by the frame's elapsed time. */
  function TimerAtStartCheck(t: TurnState, f: Frame): real
  {
    if t.turnEnded then RearmDelay(t) else DecayTimer(t.timer, f.dt)
  }

  /** The turn-start handler runs when nobody is playing at the check (either
      nobody was, or the turn just ended) and the timer has run out. Setup is
      not consulted. */
  predicate TurnStarts(t: TurnState, f: Frame)
  {
    (t.turnEnded || t.current.None?) && TimerAtStartCheck(t, f) <= 0.0
  }

  /** The player in the `next` slot when the turn-start check is reached. */
  function NextAtStartCheck(t: TurnState, f: Frame): Option<Player>
  {
    if t.turnEnded then Some(NextAfter(t.current))
    else if SetupCompletes(t, f) then Some(Blue)
    else t.next
  }

  /** One `update` tick: decay the timer, detect setup completion, consume the
      turn-ended flag, then start a turn if nobody is playing and the timer has
      run out. The contract states the result in terms of the state before the
      tick: which handlers run, the board calls in order, and every field. */
  function Tick(t: TurnState, f: Frame): (r: Step)
    ensures r.state.setupFinished == (t.setupFinished || f.revealed == f.inPlay)
    ensures !r.state.turnEnded
    ensures r.state.timer == TimerAtStartCheck(t, f)
    ensures r.state.current ==
      if TurnStarts(t, f) then NextAtStartCheck(t, f)
      else if t.turnEnded then None
      else t.current
    ensures r.state.next == if TurnStarts(t, f) then None else NextAtStartCheck(t, f)
    ensures r.state.timeBetweenTurns == t.timeBetweenTurns
    ensures r.state.nextTurnDelay == t.nextTurnDelay
    ensures r.calls ==
      (if SetupCompletes(t, f) then [UpdateValidTiles, SetHighlights] else [])
      + (if t.turnEnded then [SetHighlights] else [])
      + (if TurnStarts(t, f) then [UpdateValidTiles, SetHighlights] else [])
  {
    // update_timers
    var decayed := t.(timer := DecayTimer(t.timer, f.dt));
    // board setup: on_board_setup_finished lines up Blue
    var setup :=
      if !decayed.setupFinished && f.revealed == f.inPlay
      then Step(decayed.(setupFinished := true, next := Some(Blue)),
                [UpdateValidTiles, SetHighlights])
      else Step(decayed, []);
    // end turn: on_turn_ended re-arms the timer and lines up the other player
    var ended :=
      if setup.state.turnEnded
      then Step(setup.state.(turnEnded := false, timer := RearmDelay(t),
                             next := Some(NextAfter(setup.state.current)), current := None),
                [SetHighlights])
      else Step(setup.state, []);
    // start turn: on_turn_start promotes the lined-up player
    var started :=
      if ended.state.current.None? && ended.state.timer <= 0.0
      then Step(ended.state.(current := ended.state.next, next := None),
                [UpdateValidTiles, SetHighlights])
      else Step(ended.state, []);
    Step(started.state, setup.calls + ended.calls + started.calls)
  }

  /** A tick that consumes a turn end with a positive re-arm delay starts no
      turn: the slot stays empty and the opponent waits in `next`. */
  lemma NoStartInTurnEndTick(t: TurnState, f: Frame)
    requires t.turnEnded && RearmDelay(t) > 0.0
    ensures Tick(t, f).state.current == None
    ensures Tick(t, f).state.next == Some(NextAfter(t.current))
    ensures Tick(t, f).state.timer == RearmDelay(t)
    ensures Tick(t, f).calls[|Tick(t, f).calls| - 1] == SetHighlights
  {
  }

  /** Once setup has finished, no later tick runs the setup handler again or
      touches `next` on its behalf. */
  lemma SetupRunsOnce(t: TurnState, f: Frame)
    requires t.setupFinished
    ensures Tick(t, f).state.setupFinished
    ensures !SetupCompletes(t, f)
    ensures !t.turnEnded && !TurnStarts(t, f) ==> Tick(t, f).state.next == t.next
  {
  }

  /** The turn-start check is not gated on setup: while the board is still
      being revealed, with nobody playing and nobody lined up, every tick with
      an expired timer runs the turn-start handler, which makes its two board
      calls and leaves the current slot empty. */
  lemma TurnStartBeforeSetup(t: TurnState, f: Frame)
    requires !t.setupFinished && f.revealed != f.inPlay
    requires !t.turnEnded && t.current == None && t.next == None
    requires t.timer - f.dt <= 0.0
    ensures TurnStarts(t, f)
    ensures !Tick(t, f).state.setupFinished
    ensures Tick(t, f).state.current == None && Tick(t, f).state.next == None
    ensures Tick(t, f).calls == [UpdateValidTiles, SetHighlights]
  {
  }

  /** If a player is already lined up before setup completes (after a restart
      between turns, or after a turn end signalled before setup), a tick with
      an expired timer makes that player current while the board is still
      being revealed. */
  lemma LinedUpStartsBeforeSetup(t: TurnState, p: Player, f: Frame)
    requires !t.setupFinished && f.revealed != f.inPlay
    requires !t.turnEnded && t.current == None && t.next == Some(p)
    requires t.timer - f.dt <= 0.0
    ensures !Tick(t, f).state.setupFinished
    ensures Tick(t, f).state.current == Some(p) && Tick(t, f).state.next == None
    ensures Tick(t, f).calls == [UpdateValidTiles, SetHighlights]
  {
  }
}
