/**
 * The one-bit session state of the libseat+libinput reader: `struct
 * input_context` and the two libseat callbacks that set its `running` field.
 */
module SeatSession {

  /** A callback that libseat invokes while it dispatches its messages. */
  datatype SeatNotice = EnableSeat | DisableSeat

  /**
   * `struct input_context`. The three handles are modelled by whether they
   * are non-null; `running` is the C `int` the callbacks write.
   */
  class InputContext {
    var hasSeat: bool
    var hasLibinput: bool
    var hasUdev: bool
    var running: int

    /** `struct input_context ctx = {0}`: every handle null, not running. */
    constructor ()
      ensures !hasSeat && !hasLibinput && !hasUdev && running == 0
    {
      hasSeat, hasLibinput, hasUdev, running := false, false, false, 0;
    }

    /** `handle_enable_seat`: the session became active. */
    method HandleEnableSeat()
      modifies this`running
      ensures running == 1
      ensures hasSeat == old(hasSeat) && hasLibinput == old(hasLibinput) && hasUdev == old(hasUdev)
    {
      running := 1;
    }

    /** `handle_disable_seat`: the session became inactive. */
    method HandleDisableSeat()
      modifies this`running
      ensures running == 0
      ensures hasSeat == old(hasSeat) && hasLibinput == old(hasLibinput) && hasUdev == old(hasUdev)
    {
      running := 0;
    }
  }

  /** The value a single callback writes into `running`. */
  function RunningAfter(n: SeatNotice): int {
    match n
    case EnableSeat => 1
    case DisableSeat => 0
  }

  /** The value of `running` after libseat has invoked the callbacks `ns` in order. */
  function AfterNotices(running: int, ns: seq<SeatNotice>): int
    decreases |ns|
  {
    if ns == [] then running else AfterNotices(RunningAfter(ns[0]), ns[1..])
  }

  /**
   * The flag only remembers the most recent callback: with no callback it is
   * untouched, otherwise it is 1 exactly when the last callback was an enable.
   */
  lemma {:induction false} AfterNoticesIsLast(running: int, ns: seq<SeatNotice>)
    ensures ns == [] ==> AfterNotices(running, ns) == running
    ensures ns != [] ==> AfterNotices(running, ns) == RunningAfter(ns[|ns| - 1])
    ensures ns != [] ==> (AfterNotices(running, ns) == 1 <==> ns[|ns| - 1] == EnableSeat)
    decreases |ns|
  {
    if ns != [] {
      AfterNoticesIsLast(RunningAfter(ns[0]), ns[1..]);
    }
  }

  /**
   * `libseat_dispatch`, as far as this context sees it: the callbacks run in
   * order, each writing `running`; no other field changes.
   */
  method DispatchNotices(ctx: InputContext, ns: seq<SeatNotice>)
    modifies ctx`running
    ensures ctx.running == AfterNotices(old(ctx.running), ns)
  {
    var i := 0;
    while i < |ns|
      invariant 0 <= i <= |ns|
      invariant AfterNotices(ctx.running, ns[i..]) == AfterNotices(old(ctx.running), ns)
    {
      assert ns[i..][1..] == ns[i + 1..];
      match ns[i] {
        case EnableSeat => ctx.HandleEnableSeat();
        case DisableSeat => ctx.HandleDisableSeat();
      }
      i := i + 1;
    }
  }
}
