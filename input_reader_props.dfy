/**
 * Properties of the libseat+libinput reader's main loop: ordering within a
 * wake, the complete drain, the exit condition, the exit code and cleanup.
 */
module InputReaderProps {
  import opened Wrappers
  import opened LibinputEvents
  import opened SeatSession
  import opened InputReader

  lemma {:induction false} HandledEventsAppend(a: seq<Action>, b: seq<Action>)
    ensures HandledEvents(a + b) == HandledEvents(a) + HandledEvents(b)
    decreases |a|
  {
    if a == [] {
      assert a + b == b;
    } else {
      assert (a + b)[0] == a[0];
      assert (a + b)[1..] == a[1..] + b;
      HandledEventsAppend(a[1..], b);
      assert HandledEvents(a + b) == HandledBy(a[0]) + HandledEvents(a[1..] + b);
    }
  }

  lemma {:induction false} HandledEventsOfHandles(evs: seq<InputEvent>)
    ensures HandledEvents(Handles(evs)) == evs
    decreases |evs|
  {
    if evs != [] {
      assert Handles(evs)[1..] == Handles(evs[1..]);
      HandledEventsOfHandles(evs[1..]);
    }
  }

  lemma {:induction false} NoHandledEvents(acts: seq<Action>)
    requires forall i :: 0 <= i < |acts| ==> !acts[i].Handled?
    ensures HandledEvents(acts) == []
    decreases |acts|
  {
    if acts != [] {
      NoHandledEvents(acts[1..]);
    }
  }

  /** Input is dispatched and drained in this wake: poll reported the input slot readable and no dispatch failed first. */
  predicate DrainsInput(inputFd: int, w: Wake) {
    && w.poll.PollReady?
    && w.poll.inputReadable
    && !(|PollSet(inputFd, w.seatFd)| > 1 && w.poll.seatReadable && !w.seatDispatchOk)
    && w.inputDispatchOk
  }

  /**
   * Within one wake the seat is dispatched before the input: every
   * SeatDispatched action precedes every InputDispatched and Handled action,
   * and the wake starts with its single poll.
   */
  lemma WakeSeatBeforeInput(running: int, inputFd: int, w: Wake)
    ensures var acts := WakeSpec(running, inputFd, w).actions;
      && acts[0] == Polled(PollSet(inputFd, w.seatFd))
      && (forall i :: 0 < i < |acts| ==> !acts[i].Polled?)
      && (forall i, j | 0 <= i < |acts| && 0 <= j < |acts| && acts[i].SeatDispatched?
            && (acts[j].InputDispatched? || acts[j].Handled?) :: i < j)
  {
  }

  /** A poll timeout or an EINTR poll error returns to the loop head having done nothing else. */
  lemma WakeRetriesOnTimeoutOrEintr(running: int, inputFd: int, w: Wake)
    requires w.poll.PollTimeout? || (w.poll.PollFailed? && w.poll.errno == EINTR)
    ensures WakeSpec(running, inputFd, w) == WakeStep([Polled(PollSet(inputFd, w.seatFd))], running, false)
  {
  }

  /** Any other poll error leaves the loop without dispatching. */
  lemma WakeLeavesOnPollError(running: int, inputFd: int, w: Wake)
    requires w.poll.PollFailed? && w.poll.errno != EINTR
    ensures WakeSpec(running, inputFd, w) == WakeStep([Polled(PollSet(inputFd, w.seatFd))], running, true)
  {
  }

  /**
   * The drain is complete and in order: the events handled in a wake are
   * exactly the events dispatch queued, classified one by one, when the
   * input is drained, and none otherwise.
   */
  lemma WakeHandlesExactlyArrived(running: int, inputFd: int, w: Wake)
    ensures HandledEvents(WakeSpec(running, inputFd, w).actions)
            == if DrainsInput(inputFd, w) then ClassifyAll(w.arrived) else []
  {
    var fds := PollSet(inputFd, w.seatFd);
    var acts := WakeSpec(running, inputFd, w).actions;
    var prefix := if w.poll.PollReady? && |fds| > 1 && w.poll.seatReadable
                  then [Polled(fds), SeatDispatched] else [Polled(fds)];
    NoHandledEvents(prefix);
    NoHandledEvents([InputDispatched]);
    if w.poll.PollReady? && w.poll.inputReadable && !(|fds| > 1 && w.poll.seatReadable && !w.seatDispatchOk) {
      HandledEventsAppend(prefix, [InputDispatched]);
      if w.inputDispatchOk {
        assert acts == prefix + [InputDispatched] + Handles(ClassifyAll(w.arrived));
        HandledEventsAppend(prefix + [InputDispatched], Handles(ClassifyAll(w.arrived)));
        HandledEventsOfHandles(ClassifyAll(w.arrived));
      } else {
        assert acts == prefix + [InputDispatched];
      }
    }
  }

  /**
   * A seat disable ends the loop rather than pausing it: when the seat is
   * dispatched in a wake and the last callback it invokes is the disable
   * callback, the loop leaves after that wake's drain and polls no more.
   */
  lemma DisableEndsLoop(running: int, inputFd: int, wakes: seq<Wake>)
    requires running != 0 && wakes != [] && !wakes[0].exitRequested
    requires wakes[0].poll.PollReady? && wakes[0].poll.seatReadable && wakes[0].seatFd >= 0
    requires wakes[0].notices != [] && wakes[0].notices[|wakes[0].notices| - 1] == DisableSeat
    ensures LoopSpec(running, inputFd, wakes) == LoopEnd(WakeSpec(running, inputFd, wakes[0]).actions, true)
  {
    AfterNoticesIsLast(running, wakes[0].notices);
  }

  /** The loop is left at once when the flag is clear or an exit was requested. */
  lemma LoopHeadCondition(running: int, inputFd: int, wakes: seq<Wake>)
    requires running == 0 || (wakes != [] && wakes[0].exitRequested)
    ensures LoopSpec(running, inputFd, wakes) == LoopEnd([], true)
  {
  }

  function CountPolled(acts: seq<Action>): nat
    decreases |acts|
  {
    if acts == [] then 0 else (if acts[0].Polled? then 1 else 0) + CountPolled(acts[1..])
  }

  lemma {:induction false} CountPolledAppend(a: seq<Action>, b: seq<Action>)
    ensures CountPolled(a + b) == CountPolled(a) + CountPolled(b)
    decreases |a|
  {
    if a == [] {
      assert a + b == b;
    } else {
      assert (a + b)[1..] == a[1..] + b;
      CountPolledAppend(a[1..], b);
    }
  }

  lemma WakePollsOnce(running: int, inputFd: int, w: Wake)
    ensures CountPolled(WakeSpec(running, inputFd, w).actions) == 1
  {
    var acts := WakeSpec(running, inputFd, w).actions;
    WakeSeatBeforeInput(running, inputFd, w);
    assert acts == [acts[0]] + acts[1..];
    CountPolledAppend([acts[0]], acts[1..]);
    NoPolledCount(acts[1..]);
  }

  lemma {:induction false} NoPolledCount(acts: seq<Action>)
    requires forall i :: 0 <= i < |acts| ==> !acts[i].Polled?
    ensures CountPolled(acts) == 0
    decreases |acts|
  {
    if acts != [] {
      NoPolledCount(acts[1..]);
    }
  }

  /**
   * Every poll of the loop is over a set of one or two descriptors with the
   * input descriptor in slot 0, there is at most one poll per wake, and a
   * loop that has not exited has polled once for every wake of the script.
   */
  lemma {:induction false} LoopPolls(running: int, inputFd: int, wakes: seq<Wake>)
    ensures var l := LoopSpec(running, inputFd, wakes);
      && (forall a :: a in l.actions && a.Polled? ==> 1 <= |a.fds| <= 2 && a.fds[0] == inputFd)
      && CountPolled(l.actions) <= |wakes|
      && (!l.exited ==> CountPolled(l.actions) == |wakes|)
    decreases |wakes|
  {
    if running != 0 && wakes != [] && !wakes[0].exitRequested {
      var s := WakeSpec(running, inputFd, wakes[0]);
      WakeSeatBeforeInput(running, inputFd, wakes[0]);
      WakePollsOnce(running, inputFd, wakes[0]);
      if !s.broke {
        LoopPolls(s.running, inputFd, wakes[1..]);
        CountPolledAppend(s.actions, LoopSpec(s.running, inputFd, wakes[1..]).actions);
      }
    }
  }

  /**
   * The exit code: EXIT_FAILURE exactly when a start-up step failed,
   * EXIT_SUCCESS for every exit from the main loop, whatever its reason.
   */
  lemma RunExitCode(env: ReaderScript)
    ensures RunSpec(env).exitCode == Some(EXIT_FAILURE) <==> !StartupOk(env.startup)
    ensures RunSpec(env).exitCode == Some(EXIT_SUCCESS)
            <==> StartupOk(env.startup) && LoopSpec(1, env.inputFd, env.wakes).exited
    ensures RunSpec(env).exitCode == None
            <==> StartupOk(env.startup) && !LoopSpec(1, env.inputFd, env.wakes).exited
  {
  }

  /**
   * Cleanup releases exactly the handles that start-up obtained, in the
   * order libinput, seat, udev, and is the last thing a finished run does.
   */
  lemma RunCleansUp(env: ReaderScript)
    requires RunSpec(env).exitCode.Some?
    ensures var s := env.startup;
      var held := Cleanup(s.udevOk && s.seatOk && s.libinputOk, s.udevOk && s.seatOk, s.udevOk);
      |held| <= |RunSpec(env).actions|
      && RunSpec(env).actions[|RunSpec(env).actions| - |held|..] == held
  {
  }

  /**
   * The events a run handles are the initial detection events, classified in
   * order, followed by those of the main loop.
   */
  lemma RunHandlesInitialFirst(env: ReaderScript)
    requires StartupOk(env.startup)
    ensures HandledEvents(RunSpec(env).actions)
            == ClassifyAll(env.startup.initialEvents) + HandledEvents(LoopSpec(1, env.inputFd, env.wakes).actions)
  {
    var evs := ClassifyAll(env.startup.initialEvents);
    var initial := [InputDispatched] + Handles(evs);
    var loop := LoopSpec(1, env.inputFd, env.wakes);
    assert HandledEvents(initial) == evs by {
      NoHandledEvents([InputDispatched]);
      HandledEventsAppend([InputDispatched], Handles(evs));
      HandledEventsOfHandles(evs);
    }
    HandledEventsAppend(initial, loop.actions);
    if loop.exited {
      assert RunSpec(env).actions == (initial + loop.actions) + Cleanup(true, true, true);
      HandledEventsAppend(initial + loop.actions, Cleanup(true, true, true));
      NoHandledEvents(Cleanup(true, true, true));
    } else {
      assert RunSpec(env).actions == initial + loop.actions;
    }
  }

  /** `running` is forced to 1 before the loop: the callbacks run while the seat opens change nothing. */
  lemma RunIgnoresOpenNotices(env: ReaderScript, ns: seq<SeatNotice>)
    ensures RunSpec(env.(startup := env.startup.(openNotices := ns))) == RunSpec(env)
  {
  }
}
