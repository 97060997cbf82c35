/**
 * The seat-gated event loop of the libseat+libinput reader (`main` of
 * input_reader.c): start-up with cleanup on failure, the initial drain, and
 * the poll / seat-dispatch / input-drain loop.
 *
 * Every foreign call is an abstract outcome. Start-up is a record of which
 * constructor succeeded; each pass of the loop is a `Wake` that says what the
 * signal flag read at the loop head, what `libseat_get_fd` and `poll`
 * returned, which callbacks `libseat_dispatch` invoked and whether it
 * failed, and what `libinput_dispatch` queued. The C loop may run forever;
 * the model observes it over a finite script of wakes, and a run whose
 * script ends while the loop would continue has no exit code.
 */
module InputReader {
  import opened Wrappers
  import opened LibinputEvents
  import opened SeatSession

  const EXIT_SUCCESS: int := 0
  const EXIT_FAILURE: int := 1
  const EINTR: int := 4

  /** libinput's internal event queue, filled by dispatch and emptied by `libinput_get_event`. */
  class EventQueue {
    var pending: seq<RawEvent>

    constructor ()
      ensures pending == []
    {
      pending := [];
    }

    /** `libinput_dispatch`: on success the events read from the devices are queued; on failure it returns a negative value. */
    method Dispatch(arrived: seq<RawEvent>, ok: bool) returns (rc: int)
      modifies this
      ensures rc < 0 <==> !ok
      ensures pending == if ok then old(pending) + arrived else old(pending)
    {
      if ok {
        pending := pending + arrived;
        rc := 0;
      } else {
        rc := -1;
      }
    }

    /** `libinput_get_event`: the oldest queued event, or NULL when the queue is empty. */
    method GetEvent() returns (e: Option<RawEvent>)
      modifies this
      ensures old(pending) == [] ==> e == None && pending == []
      ensures old(pending) != [] ==> e == Some(old(pending)[0]) && pending == old(pending)[1..]
    {
      if pending == [] {
        e := None;
      } else {
        e := Some(pending[0]);
        pending := pending[1..];
      }
    }
  }

  /**
   * The drain loop `while ((event = libinput_get_event(...))) print_event(event)`:
   * every queued event is handled once, in queue order, and the queue is empty afterwards.
   */
  method Drain(q: EventQueue) returns (handled: seq<InputEvent>)
    modifies q
    ensures q.pending == []
    ensures handled == ClassifyAll(old(q.pending))
  {
    ghost var queued := q.pending;
    handled := [];
    var e := q.GetEvent();
    while e.Some?
      invariant |handled| <= |queued|
      invariant forall j :: 0 <= j < |handled| ==> handled[j] == Classify(queued[j])
      invariant e.Some? ==> |handled| < |queued| && e.value == queued[|handled|] && q.pending == queued[|handled| + 1..]
      invariant e.None? ==> |handled| == |queued| && q.pending == []
      decreases |queued| - |handled|
    {
      handled := handled + [Classify(e.value)];
      e := q.GetEvent();
    }
    assert handled == ClassifyAll(queued);
  }

  /**
   * The descriptors handed to `poll`: the libinput descriptor always in slot
   * 0, the seat descriptor in slot 1 only when `libseat_get_fd` gave one.
   */
  function PollSet(inputFd: int, seatFd: int): (fds: seq<int>)
    ensures 1 <= |fds| <= 2 && fds[0] == inputFd
    ensures |fds| == 2 <==> seatFd >= 0
    ensures |fds| == 2 ==> fds[1] == seatFd
  {
    if seatFd >= 0 then [inputFd, seatFd] else [inputFd]
  }

  /** Filling `struct pollfd fds[2]` and counting `nfds`. */
  method BuildPollSet(inputFd: int, seatFd: int) returns (fds: array<int>, nfds: nat)
    ensures fds.Length == 2 && nfds <= 2
    ensures fds[..nfds] == PollSet(inputFd, seatFd)
  {
    fds := new int[2];
    nfds := 0;
    fds[nfds] := inputFd;
    nfds := nfds + 1;
    if seatFd >= 0 {
      fds[nfds] := seatFd;
      nfds := nfds + 1;
    }
  }

  /** What `poll` reported: an error with its errno, a timeout, or readiness of the two slots. */
  datatype PollOutcome =
    | PollFailed(errno: int)
    | PollTimeout
    | PollReady(inputReadable: bool, seatReadable: bool)

  /** One pass of the main loop, as the outside world answers it. */
  datatype Wake = Wake(
    exitRequested: bool,          // `should_exit` as read at the loop head
    seatFd: int,                  // `libseat_get_fd`
    poll: PollOutcome,
    notices: seq<SeatNotice>,     // callbacks invoked by `libseat_dispatch`
    seatDispatchOk: bool,         // `libseat_dispatch` >= 0
    inputDispatchOk: bool,        // `libinput_dispatch` >= 0
    arrived: seq<RawEvent>)       // events `libinput_dispatch` queued

  datatype Resource = Libinput | Seat | Udev

  /** What the reader does, in the order it does it. */
  datatype Action =
    | Polled(fds: seq<int>)
    | SeatDispatched
    | InputDispatched
    | Handled(ev: InputEvent)
    | Unref(res: Resource)

  function Handles(evs: seq<InputEvent>): seq<Action> {
    seq(|evs|, i requires 0 <= i < |evs| => Handled(evs[i]))
  }

  function HandledBy(a: Action): seq<InputEvent> {
    if a.Handled? then [a.ev] else []
  }

  /** The events handled in a sequence of actions, in order. */
  function HandledEvents(acts: seq<Action>): seq<InputEvent>
    decreases |acts|
  {
    if acts == [] then [] else HandledBy(acts[0]) + HandledEvents(acts[1..])
  }

  /** The result of one pass: its actions, the new `running`, and whether it left the loop. */
  datatype WakeStep = WakeStep(actions: seq<Action>, running: int, broke: bool)

  /**
   * One pass of the loop body. A poll error with EINTR and a timeout return
   * to the head; any other poll error leaves the loop. Seat messages are
   * dispatched first (only when the seat slot exists and is readable), then
   * the input queue is dispatched and drained.
   */
  function WakeSpec(running: int, inputFd: int, w: Wake): WakeStep {
    var fds := PollSet(inputFd, w.seatFd);
    var polled := [Polled(fds)];
    match w.poll
    case PollFailed(errno) => WakeStep(polled, running, errno != EINTR)
    case PollTimeout => WakeStep(polled, running, false)
    case PollReady(inputReadable, seatReadable) =>
      var r := ReadySpec(running, |fds| > 1 && seatReadable, inputReadable, w);
      WakeStep(polled + r.actions, r.running, r.broke)
  }

  /**
   * What follows a poll that reported readiness: the seat turn when the seat
   * slot exists and is readable, then the input turn when the input slot is.
   */
  function ReadySpec(running: int, seatTurn: bool, inputReadable: bool, w: Wake): WakeStep {
    var afterSeat := if seatTurn then AfterNotices(running, w.notices) else running;
    var seatActs := if seatTurn then [SeatDispatched] else [];
    if seatTurn && !w.seatDispatchOk then WakeStep(seatActs, afterSeat, true)
    else if !inputReadable then WakeStep(seatActs, afterSeat, false)
    else if !w.inputDispatchOk then WakeStep(seatActs + [InputDispatched], afterSeat, true)
    else WakeStep(seatActs + [InputDispatched] + Handles(ClassifyAll(w.arrived)), afterSeat, false)
  }

  /** How the main loop ended: its actions, and whether it left the loop (false: still running when the script ended). */
  datatype LoopEnd = LoopEnd(actions: seq<Action>, exited: bool)

  /** `while (ctx.running && !should_exit) { ... }` over a script of wakes. */
  function LoopSpec(running: int, inputFd: int, wakes: seq<Wake>): LoopEnd
    decreases |wakes|
  {
    if running == 0 then LoopEnd([], true)
    else if wakes == [] then LoopEnd([], false)
    else if wakes[0].exitRequested then LoopEnd([], true)
    else
      var s := WakeSpec(running, inputFd, wakes[0]);
      if s.broke then LoopEnd(s.actions, true)
      else
        var rest := LoopSpec(s.running, inputFd, wakes[1..]);
        LoopEnd(s.actions + rest.actions, rest.exited)
  }

  /** Which start-up steps succeed, and what they do. */
  datatype Startup = Startup(
    udevOk: bool,                 // `udev_new`
    seatOk: bool,                 // `libseat_open_seat`
    openNotices: seq<SeatNotice>, // callbacks invoked while the seat opens
    libinputOk: bool,             // `libinput_udev_create_context`
    assignOk: bool,               // `libinput_udev_assign_seat(..., "seat0") == 0`
    initialEvents: seq<RawEvent>) // events of the initial device detection

  datatype ReaderScript = ReaderScript(startup: Startup, inputFd: int, wakes: seq<Wake>)

  /** A whole run: its actions, and the exit code (None: still running when the script ended). */
  datatype Run = Run(actions: seq<Action>, exitCode: Option<int>)

  function Rank(r: Resource): int {
    match r
    case Libinput => 0
    case Seat => 1
    case Udev => 2
  }

  /** The `cleanup:` block: release the non-null handles, libinput first, then the seat, then udev. */
  function Cleanup(hasLibinput: bool, hasSeat: bool, hasUdev: bool): (acts: seq<Action>)
    ensures forall a :: a in acts ==> a.Unref?
    ensures Unref(Libinput) in acts <==> hasLibinput
    ensures Unref(Seat) in acts <==> hasSeat
    ensures Unref(Udev) in acts <==> hasUdev
    ensures forall i, j :: 0 <= i < j < |acts| ==> Rank(acts[i].res) < Rank(acts[j].res)
  {
    (if hasLibinput then [Unref(Libinput)] else [])
    + (if hasSeat then [Unref(Seat)] else [])
    + (if hasUdev then [Unref(Udev)] else [])
  }

  /** Every start-up step succeeded. */
  predicate StartupOk(s: Startup) {
    s.udevOk && s.seatOk && s.libinputOk && s.assignOk
  }

  /** The whole of `main`. */
  function RunSpec(env: ReaderScript): Run {
    var s := env.startup;
    if !s.udevOk then Run(Cleanup(false, false, false), Some(EXIT_FAILURE))
    else if !s.seatOk then Run(Cleanup(false, false, true), Some(EXIT_FAILURE))
    else if !s.libinputOk then Run(Cleanup(false, true, true), Some(EXIT_FAILURE))
    else if !s.assignOk then Run(Cleanup(true, true, true), Some(EXIT_FAILURE))
    else
      var initial := [InputDispatched] + Handles(ClassifyAll(s.initialEvents));
      var loop := LoopSpec(1, env.inputFd, env.wakes);
      if loop.exited then Run(initial + loop.actions + Cleanup(true, true, true), Some(EXIT_SUCCESS))
      else Run(initial + loop.actions, None)
  }

  /** The `cleanup:` block over the context's handles. */
  method CleanupContext(ctx: InputContext) returns (acts: seq<Action>)
    ensures acts == Cleanup(ctx.hasLibinput, ctx.hasSeat, ctx.hasUdev)
  {
    acts := [];
    if ctx.hasLibinput {
      acts := acts + [Unref(Libinput)];
    }
    if ctx.hasSeat {
      acts := acts + [Unref(Seat)];
    }
    if ctx.hasUdev {
      acts := acts + [Unref(Udev)];
    }
  }

  /** The input turn: dispatch, and on success drain the queue. */
  method InputTurn(q: EventQueue, w: Wake) returns (acts: seq<Action>, broke: bool)
    requires q.pending == []
    modifies q
    ensures broke <==> !w.inputDispatchOk
    ensures acts == [InputDispatched] + (if broke then [] else Handles(ClassifyAll(w.arrived)))
    ensures q.pending == []
  {
    acts := [InputDispatched];
    var rc := q.Dispatch(w.arrived, w.inputDispatchOk);
    if rc < 0 {
      return acts, true;
    }
    var handled := Drain(q);
    assert handled == ClassifyAll(w.arrived);
    acts := acts + Handles(handled);
    broke := false;
  }

  /** The seat and input turns of one pass, after a poll that reported readiness. */
  method ServiceReady(ctx: InputContext, q: EventQueue, seatTurn: bool, inputReadable: bool, w: Wake)
    returns (acts: seq<Action>, broke: bool)
    requires q.pending == []
    modifies ctx`running, q
    ensures WakeStep(acts, ctx.running, broke) == ReadySpec(old(ctx.running), seatTurn, inputReadable, w)
    ensures q.pending == []
  {
    acts := [];
    broke := false;
    if seatTurn {
      acts := [SeatDispatched];
      DispatchNotices(ctx, w.notices);
      if !w.seatDispatchOk {
        return acts, true;
      }
    }
    if inputReadable {
      var inputActs;
      inputActs, broke := InputTurn(q, w);
      acts := acts + inputActs;
    }
  }

  /** One pass of the loop body over the live context and queue. */
  method RunWake(ctx: InputContext, q: EventQueue, inputFd: int, w: Wake) returns (acts: seq<Action>, broke: bool)
    requires q.pending == []
    modifies ctx`running, q
    ensures acts == WakeSpec(old(ctx.running), inputFd, w).actions
    ensures broke == WakeSpec(old(ctx.running), inputFd, w).broke
    ensures ctx.running == WakeSpec(old(ctx.running), inputFd, w).running
    ensures q.pending == []
  {
    var fds, nfds := BuildPollSet(inputFd, w.seatFd);
    acts := [Polled(fds[..nfds])];
    broke := false;
    match w.poll {
      case PollFailed(errno) =>
        if errno != EINTR {
          broke := true;
        }
      case PollTimeout =>
      case PollReady(inputReadable, seatReadable) =>
        var ready, readyBroke := ServiceReady(ctx, q, nfds > 1 && seatReadable, inputReadable, w);
        acts := acts + ready;
        broke := readyBroke;
    }
  }

  /** The should-exit flag at the loop head before pass `i`. */
  predicate ShouldExitAt(wakes: seq<Wake>, i: nat) {
    i < |wakes| && wakes[i].exitRequested
  }

  /** The main loop, from `ctx.running = 1` to the first exit (or the end of the script). */
  method MainLoop(ctx: InputContext, q: EventQueue, inputFd: int, wakes: seq<Wake>) returns (acts: seq<Action>, exited: bool)
    requires q.pending == [] && ctx.running == 1
    modifies ctx`running, q
    ensures acts == LoopSpec(1, inputFd, wakes).actions
    ensures exited == LoopSpec(1, inputFd, wakes).exited
  {
    acts := [];
    ghost var total := LoopSpec(1, inputFd, wakes);
    var i := 0;
    var observedEnd := false;
    while ctx.running != 0 && !ShouldExitAt(wakes, i)
      invariant 0 <= i <= |wakes|
      invariant q.pending == []
      invariant !observedEnd
      invariant acts + LoopSpec(ctx.running, inputFd, wakes[i..]).actions == total.actions
      invariant LoopSpec(ctx.running, inputFd, wakes[i..]).exited == total.exited
      decreases |wakes| - i
    {
      if i == |wakes| {
        assert wakes[i..] == [];
        observedEnd := true;
        break;
      }
      assert wakes[i..][0] == wakes[i] && wakes[i..][1..] == wakes[i + 1..];
      var stepActs, broke := RunWake(ctx, q, inputFd, wakes[i]);
      acts := acts + stepActs;
      i := i + 1;
      if broke {
        break;
      }
    }
    exited := !observedEnd;
  }

  /** `main`: start-up, initial drain, main loop, cleanup, exit code. */
  method RunInputReader(env: ReaderScript) returns (run: Run)
    ensures run == RunSpec(env)
  {
    var s := env.startup;
    var ctx := new InputContext();
    var q := new EventQueue();
    var ret := EXIT_FAILURE;
    var acts: seq<Action> := [];
    label startup: {
      ctx.hasUdev := s.udevOk;
      if !ctx.hasUdev {
        assert RunSpec(env) == Run(Cleanup(false, false, false), Some(EXIT_FAILURE));
        break startup;
      }
      ctx.hasSeat := s.seatOk;
      if !ctx.hasSeat {
        assert RunSpec(env) == Run(Cleanup(false, false, true), Some(EXIT_FAILURE));
        break startup;
      }
      DispatchNotices(ctx, s.openNotices);
      ctx.hasLibinput := s.libinputOk;
      if !ctx.hasLibinput {
        assert RunSpec(env) == Run(Cleanup(false, true, true), Some(EXIT_FAILURE));
        break startup;
      }
      if !s.assignOk {
        assert RunSpec(env) == Run(Cleanup(true, true, true), Some(EXIT_FAILURE));
        break startup;
      }

      // Initial device detection: dispatch (result ignored), then drain.
      var _ := q.Dispatch(s.initialEvents, true);
      var initial := Drain(q);
      acts := [InputDispatched] + Handles(initial);
      assert initial == ClassifyAll(s.initialEvents);

      ctx.running := 1;
      var loopActs, exited := MainLoop(ctx, q, env.inputFd, env.wakes);
      acts := acts + loopActs;
      assert ctx.hasUdev && ctx.hasSeat && ctx.hasLibinput;
      assert StartupOk(s);
      if !exited {
        return Run(acts, None);
      }
      ret := EXIT_SUCCESS;
    }
    var released := CleanupContext(ctx);
    run := Run(acts + released, Some(ret));
  }
}
