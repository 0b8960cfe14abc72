/** Runs of consecutive ticks, and what the controller promises across them:
    the timer never goes negative, setup completes at most once, the next turn
    starts on exactly the tick whose elapsed time drains the inter-turn delay,
    and turns alternate between the two players. */
module TurnRuns {
  import opened TurnRules

  /** The frames' elapsed times, added up. */
  function Elapsed(fs: seq<Frame>): real
  {
    if fs == [] then 0.0 else fs[0].dt + Elapsed(fs[1..])
  }

  /** Every frame's elapsed time is non-negative, as the engine's clock gives it. */
  predicate ForwardFrames(fs: seq<Frame>)
  {
    forall i :: 0 <= i < |fs| ==> fs[i].dt >= 0.0
  }

  /** Ticks `t` once per frame, in order, and collects the board calls. Ticks
      never change the two configured durations. */
  function Run(t: TurnState, fs: seq<Frame>): (r: Step)
    ensures r.state.timeBetweenTurns == t.timeBetweenTurns
    ensures r.state.nextTurnDelay == t.nextTurnDelay
    ensures fs != [] ==> !r.state.turnEnded
    decreases |fs|
  {
    if fs == [] then Step(t, [])
    else
      var first := Tick(t, fs[0]);
      var rest := Run(first.state, fs[1..]);
      Step(rest.state, first.calls + rest.calls)
  }

  lemma {:induction false} ElapsedNonNegative(fs: seq<Frame>)
    requires ForwardFrames(fs)
    ensures Elapsed(fs) >= 0.0
  {
    if fs != [] {
      ElapsedNonNegative(fs[1..]);
    }
  }

  lemma {:induction false} ElapsedAppend(fs: seq<Frame>, gs: seq<Frame>)
    ensures Elapsed(fs + gs) == Elapsed(fs) + Elapsed(gs)
  {
    if fs == [] {
      assert fs + gs == gs;
    } else {
      assert (fs + gs)[1..] == fs[1..] + gs;
      ElapsedAppend(fs[1..], gs);
    }
  }

  /** Running two stretches of frames one after the other is running their
      concatenation. */
  lemma {:induction false} RunAppend(t: TurnState, fs: seq<Frame>, gs: seq<Frame>)
    ensures Run(t, fs + gs).state == Run(Run(t, fs).state, gs).state
    ensures Run(t, fs + gs).calls == Run(t, fs).calls + Run(Run(t, fs).state, gs).calls
    decreases |fs|
  {
    if fs == [] {
      assert fs + gs == gs;
    } else {
      assert (fs + gs)[1..] == fs[1..] + gs;
      RunAppend(Tick(t, fs[0]).state, fs[1..], gs);
    }
  }

  /** With a non-negative re-arm delay, the timer is never negative after any
      run of ticks that starts from a non-negative timer. */
  lemma {:induction false} TimerStaysNonNegative(t: TurnState, fs: seq<Frame>)
    requires t.timer >= 0.0 && RearmDelay(t) >= 0.0
    ensures Run(t, fs).state.timer >= 0.0
    decreases |fs|
  {
    if fs != [] {
      TimerStaysNonNegative(Tick(t, fs[0]).state, fs[1..]);
    }
  }

  /** The number of ticks in the run that run the setup handler. */
  function SetupCount(t: TurnState, fs: seq<Frame>): nat
    decreases |fs|
  {
    if fs == [] then 0
    else (if SetupCompletes(t, fs[0]) then 1 else 0) + SetupCount(Tick(t, fs[0]).state, fs[1..])
  }

  lemma {:induction false} NoSetupAfterFinished(t: TurnState, fs: seq<Frame>)
    requires t.setupFinished
    ensures SetupCount(t, fs) == 0
    ensures fs != [] ==> Run(t, fs).state.setupFinished
    decreases |fs|
  {
    if fs != [] {
      NoSetupAfterFinished(Tick(t, fs[0]).state, fs[1..]);
    }
  }

  /** Between two `start_game` calls the setup handler runs at most once, and
      it has run exactly when setup is finished at the end of the run (for a
      run that starts before setup finished). */
  lemma {:induction false} SetupAtMostOnce(t: TurnState, fs: seq<Frame>)
    ensures SetupCount(t, fs) <= 1
    ensures t.setupFinished ==> SetupCount(t, fs) == 0
    ensures !t.setupFinished ==> (SetupCount(t, fs) == 1 <==> Run(t, fs).state.setupFinished)
    decreases |fs|
  {
    if fs != [] {
      var next := Tick(t, fs[0]).state;
      if next.setupFinished {
        NoSetupAfterFinished(next, fs[1..]);
      } else {
        SetupAtMostOnce(next, fs[1..]);
      }
    }
  }

  /** The controller is between turns: setup is done, nobody is playing, no turn
      end is pending. */
  predicate BetweenTurns(t: TurnState)
  {
    t.setupFinished && t.current.None? && !t.turnEnded
  }

  /** While the frames' total elapsed time stays below the timer, the ticks only
      run the timer down: no turn starts, no board call is made, and nothing
      else changes. */
  lemma {:induction false} WaitingOnlyDrainsTimer(t: TurnState, fs: seq<Frame>)
    requires BetweenTurns(t) && ForwardFrames(fs)
    requires Elapsed(fs) < t.timer
    ensures Run(t, fs).state == t.(timer := t.timer - Elapsed(fs))
    ensures Run(t, fs).calls == []
    decreases |fs|
  {
    if fs != [] {
      ElapsedNonNegative(fs[1..]);
      var next := Tick(t, fs[0]).state;
      assert next == t.(timer := t.timer - fs[0].dt);
      WaitingOnlyDrainsTimer(next, fs[1..]);
    }
  }

  /** The tick whose elapsed time makes the total reach the timer starts the
      turn of the player waiting in `next`, with the two board calls. */
  lemma {:induction false} StartsWhenDrained(t: TurnState, fs: seq<Frame>, last: Frame)
    requires BetweenTurns(t) && ForwardFrames(fs)
    requires Elapsed(fs) < t.timer <= Elapsed(fs) + last.dt
    ensures Run(t, fs + [last]).state == t.(timer := 0.0, current := t.next, next := None)
    ensures Run(t, fs + [last]).calls == [UpdateValidTiles, SetHighlights]
  {
    WaitingOnlyDrainsTimer(t, fs);
    RunAppend(t, fs, [last]);
  }

  /** A full turn change: the current player `p` signals the end of the turn,
      one tick consumes it, and then the delay is drained; the turn starts for
      the opponent on the tick where the elapsed time after the end reaches the
      re-arm delay, and not before. */
  lemma {:induction false} TurnPassesToOpponent(
    t: TurnState, p: Player, end: Frame, fs: seq<Frame>, last: Frame)
    requires t.setupFinished && t.current == Some(p) && t.turnEnded
    requires RearmDelay(t) > 0.0 && ForwardFrames(fs)
    requires Elapsed(fs) < RearmDelay(t) <= Elapsed(fs) + last.dt
    ensures forall k :: 0 <= k <= |fs| ==> Run(t, [end] + fs[..k]).state.current == None
    ensures Run(t, [end] + fs + [last]).state.current == Some(Opponent(p))
    ensures Run(t, [end] + fs + [last]).state.next == None
  {
    var u := Tick(t, end).state;
    assert u == t.(turnEnded := false, timer := RearmDelay(t), current := None,
                   next := Some(Opponent(p)));
    assert Run(t, [end]).state == u;
    forall k | 0 <= k <= |fs|
      ensures Run(t, [end] + fs[..k]).state.current == None
    {
      var pre := fs[..k];
      ElapsedAppend(pre, fs[k..]);
      assert fs == pre + fs[k..];
      ElapsedNonNegative(fs[k..]);
      WaitingOnlyDrainsTimer(u, pre);
      RunAppend(t, [end], pre);
    }
    StartsWhenDrained(u, fs, last);
    RunAppend(t, [end], fs + [last]);
    assert [end] + fs + [last] == [end] + (fs + [last]);
  }

  /** Two turn changes in a row hand the turn back: Blue, then Red, then Blue
      again (and likewise from Red). */
  lemma {:induction false} TurnsAlternate(
    t: TurnState, p: Player,
    end1: Frame, fs1: seq<Frame>, last1: Frame,
    end2: Frame, fs2: seq<Frame>, last2: Frame)
    requires t.setupFinished && t.current == Some(p) && t.turnEnded
    requires RearmDelay(t) > 0.0 && ForwardFrames(fs1) && ForwardFrames(fs2)
    requires Elapsed(fs1) < RearmDelay(t) <= Elapsed(fs1) + last1.dt
    requires Elapsed(fs2) < RearmDelay(t) <= Elapsed(fs2) + last2.dt
    ensures
      var mid := Run(t, [end1] + fs1 + [last1]).state;
      mid.current == Some(Opponent(p)) &&
      Run(mid.(turnEnded := true), [end2] + fs2 + [last2]).state.current == Some(p)
  {
    var run1 := [end1] + fs1 + [last1];
    TurnPassesToOpponent(t, p, end1, fs1, last1);
    var mid := Run(t, run1).state;
    assert mid.setupFinished by {
      NoSetupAfterFinished(t, run1);
    }
    TurnPassesToOpponent(mid.(turnEnded := true), Opponent(p), end2, fs2, last2);
  }

  /** Exactly one of the two player slots is filled: someone is playing or
      someone is lined up, never both and never neither. */
  predicate OneSlotFilled(t: TurnState)
  {
    t.current.Some? != t.next.Some?
  }

  /** A fresh session establishes the property: the tick that completes setup
      lines up Blue, who either waits or starts at once. */
  lemma OneSlotEstablished(t: TurnState, f: Frame)
    requires !t.setupFinished && !t.turnEnded && t.current == None
    requires f.revealed == f.inPlay
    ensures Tick(t, f).state.setupFinished
    ensures OneSlotFilled(Tick(t, f).state)
  {
  }

  /** Once setup has finished, a tick keeps exactly one slot filled. */
  lemma OneSlotPreserved(t: TurnState, f: Frame)
    requires t.setupFinished && OneSlotFilled(t)
    ensures OneSlotFilled(Tick(t, f).state)
  {
  }

  /** Once setup has finished, every run of ticks keeps exactly one slot
      filled. */
  lemma {:induction false} OneSlotHoldsOverRuns(t: TurnState, fs: seq<Frame>)
    requires t.setupFinished && OneSlotFilled(t)
    ensures OneSlotFilled(Run(t, fs).state)
    decreases |fs|
  {
    if fs != [] {
      OneSlotPreserved(t, fs[0]);
      OneSlotHoldsOverRuns(Tick(t, fs[0]).state, fs[1..]);
    }
  }

  /** The one-slot property does not survive a restart: `start_game` resets
      only the setup flag, so restarting while `p` is playing and completing
      setup leaves `p` current and lines Blue up as well. */
  lemma RestartWhilePlayingFillsBothSlots(t: TurnState, p: Player, f: Frame)
    requires t.current == Some(p) && t.next == None && !t.turnEnded
    requires f.revealed == f.inPlay
    ensures Tick(t.(setupFinished := false), f).state.current == Some(p)
    ensures Tick(t.(setupFinished := false), f).state.next == Some(Blue)
    ensures !OneSlotFilled(Tick(t.(setupFinished := false), f).state)
  {
  }

  /** Nor does it survive a turn end signalled before setup completes: the
      turn end lines up Blue, the drained timer makes Blue current while the
      board is still being revealed, and setup completion then lines Blue up a
      second time. */
  lemma EarlyTurnEndLinesUpBlueTwice(t: TurnState, f1: Frame, f2: Frame, f3: Frame)
    requires !t.setupFinished && t.turnEnded && t.current == None
    requires RearmDelay(t) > 0.0 && f2.dt >= RearmDelay(t)
    requires f1.revealed != f1.inPlay && f2.revealed != f2.inPlay
    requires f3.revealed == f3.inPlay
    ensures !Run(t, [f1, f2]).state.setupFinished
    ensures Run(t, [f1, f2]).state.current == Some(Blue)
    ensures Run(t, [f1, f2, f3]).state.current == Some(Blue)
    ensures Run(t, [f1, f2, f3]).state.next == Some(Blue)
  {
    var s1 := Tick(t, f1).state;
    assert s1.current == None && s1.next == Some(Blue) && s1.timer == RearmDelay(t);
    var s2 := Tick(s1, f2).state;
    assert s2.current == Some(Blue) && !s2.setupFinished;
    RunAppend(t, [f1], [f2]);
    RunAppend(t, [f1, f2], [f3]);
    assert [f1] + [f2] == [f1, f2];
    assert [f1, f2] + [f3] == [f1, f2, f3];
  }

  /** An example session: time between turns 0.2, no extra delay. Setup
      completes on the first tick, which also starts Blue's turn because the
      timer was never armed; a turn end re-arms the timer to 0.2 and lines up
      Red; three ticks of 0.05 leave the slot empty and the fourth starts Red's
      turn. */
  lemma EndToEndExample()
    ensures
      var ready := Frame(0.01, 30, 30);
      var first := Tick(Initial(), ready).state;
      var ended := Tick(first.(turnEnded := true), ready).state;
      var step := Frame(0.05, 30, 30);
      first.current == Some(Blue) &&
      ended.timer == 0.2 && ended.current == None && ended.next == Some(Red) &&
      Run(ended, [step, step, step]).state.current == None &&
      Run(ended, [step, step, step, step]).state.current == Some(Red)
  {
    var ready := Frame(0.01, 30, 30);
    var step := Frame(0.05, 30, 30);
    var first := Tick(Initial(), ready).state;
    assert TurnStarts(Initial(), ready);
    assert first.current == Some(Blue) && first.setupFinished;
    var ended := Tick(first.(turnEnded := true), ready).state;
    assert !TurnStarts(first.(turnEnded := true), ready);
    assert BetweenTurns(ended) && ended.timer == 0.2 && ended.next == Some(Red);
    var three := [step, step, step];
    assert ForwardFrames(three);
    assert Elapsed(three) == 0.15 by {
      assert three[1..] == [step, step] && [step, step][1..] == [step] && [step][1..] == [];
      assert Elapsed([step]) == 0.05;
      assert Elapsed([step, step]) == 0.1;
    }
    WaitingOnlyDrainsTimer(ended, three);
    StartsWhenDrained(ended, three, step);
    assert three + [step] == [step, step, step, step];
  }
}
