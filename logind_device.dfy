/**
 * `demo_device_control_and_access` of the logind demo: find a keyboard,
 * take control of it through the `TakeDevice` method of systemd-logind's
 * `org.freedesktop.login1.Session` interface, read from the descriptor
 * logind hands back unless the device is paused, then `ReleaseDevice` and
 * close; when `TakeDevice` fails, open the node directly instead.
 *
 * Every foreign call is an outcome of the `Demo` record; the program's
 * observable behaviour is its return value and the sequence of device
 * operations it performs.
 */
module LogindDevice {
  import opened Wrappers
  import opened ReadEvents
  import opened KeyboardProbe

  const DEVICE_PATH_SIZE: int := 256
  const SESSION_PATH_SIZE: int := 256
  const SESSION_PATH_PREFIX: string := "/org/freedesktop/login1/session/"
  /** `max_events` for reads from the descriptor logind hands back. */
  const CONTROLLED_READ_LIMIT: int := 10
  /** `max_events` for reads from a directly opened node. */
  const DIRECT_READ_LIMIT: int := 5

  /** `major(st.st_rdev)` and `minor(st.st_rdev)` of a device node. */
  datatype DevNumbers = DevNumbers(major: nat, minor: nat)

  /**
   * The outcome of the `TakeDevice` call: a bus error, or a reply, which
   * may be unreadable, carrying the descriptor and the paused flag.
   */
  datatype TakeReply = TakeFailed | TakeReplied(readable: bool, controlledFd: int, paused: bool)

  /** What each foreign call of the demo returns. */
  datatype Demo = Demo(
    sessionCall: int,                  // `sd_pid_get_session`: negative errno on failure
    sessionId: string,
    probe: string -> Probe,            // `open` + `EVIOCGBIT` per candidate
    busCall: int,                      // `sd_bus_open_system`
    stat: string -> Option<DevNumbers>,
    take: TakeReply,
    controlledReads: seq<ReadCall>,
    directOpen: string -> int,         // `open(path, O_RDONLY | O_NONBLOCK)`
    directReads: seq<ReadCall>)

  /** A device operation the demo performs, in the order performed. */
  datatype Step =
    | TakeDevice(sessionPath: string, major: nat, minor: nat)
    | ReadDevice(fd: int, maxEvents: int, count: int)
    | ReleaseDevice(sessionPath: string, major: nat, minor: nat)
    | CloseFd(fd: int)
    | OpenDirect(path: string, readOnly: bool, nonBlocking: bool)  // `O_RDONLY`, `O_NONBLOCK`

  datatype DemoRun = DemoRun(ret: int, steps: seq<Step>)

  /**
   * The session object path, formatted into a 256-byte buffer: the prefix
   * and the session id, cut to 255 characters when longer.
   */
  function SessionPath(id: string): (p: string)
    ensures |p| < SESSION_PATH_SIZE
    ensures p <= SESSION_PATH_PREFIX + id
    ensures |SESSION_PATH_PREFIX + id| < SESSION_PATH_SIZE ==> p == SESSION_PATH_PREFIX + id
    ensures |SESSION_PATH_PREFIX + id| >= SESSION_PATH_SIZE ==> |p| == SESSION_PATH_SIZE - 1
  {
    var full := SESSION_PATH_PREFIX + id;
    if |full| < SESSION_PATH_SIZE then full else full[..SESSION_PATH_SIZE - 1]
  }

  /** The operations after `TakeDevice(major, minor)` on `path`. */
  function AfterTake(d: Demo, path: string, dev: DevNumbers): seq<Step> {
    match d.take
    case TakeFailed =>
      var fd := d.directOpen(path);
      [OpenDirect(path, true, true)]
        + (if fd >= 0 then [ReadDevice(fd, DIRECT_READ_LIMIT, ReadLoop(d.directReads, 0, DIRECT_READ_LIMIT).count), CloseFd(fd)]
           else [])
    case TakeReplied(readable, fd, paused) =>
      if !readable then []
      else
        (if paused then []
         else [ReadDevice(fd, CONTROLLED_READ_LIMIT, ReadLoop(d.controlledReads, 0, CONTROLLED_READ_LIMIT).count)])
          + [ReleaseDevice(SessionPath(d.sessionId), dev.major, dev.minor), CloseFd(fd)]
  }

  /** The whole demo, with the device named by the first candidate that supports key events. */
  function DemoSpec(d: Demo): DemoRun {
    if d.sessionCall < 0 then DemoRun(d.sessionCall, [])
    else
      match FirstKeyboard(d.probe)
      case None => DemoRun(-1, [])
      case Some(i) =>
        if d.busCall < 0 then DemoRun(d.busCall, [])
        else
          var path := Candidates[i];
          match d.stat(path)
          case None => DemoRun(0, [])
          case Some(dev) =>
            DemoRun(0, [TakeDevice(SessionPath(d.sessionId), dev.major, dev.minor)] + AfterTake(d, path, dev))
  }

  lemma CandidatesAreShortCStrings()
    ensures forall i :: 0 <= i < |Candidates| ==> NoNul(Candidates[i]) && |Candidates[i]| < DEVICE_PATH_SIZE
  {
  }

  /** `demo_device_control_and_access()`; the gotos become labelled blocks. */
  method DeviceControlAndAccess(d: Demo) returns (ret: int, steps: seq<Step>)
    ensures DemoRun(ret, steps) == DemoSpec(d)
  {
    steps := [];
    if d.sessionCall < 0 {
      return d.sessionCall, steps;
    }
    var devicePath := new char[DEVICE_PATH_SIZE](_ => NUL);
    var r := FindKeyboardDevice(devicePath, d.probe);
    if r < 0 {
      return r, steps;
    }
    var i := FirstKeyboard(d.probe).value;
    CandidatesAreShortCStrings();
    CopyReadsBack(Candidates[i], DEVICE_PATH_SIZE);
    var path := CString(devicePath[..]);
    assert path == Candidates[i];
    if d.busCall < 0 {
      return d.busCall, steps;
    }
    var sessionPath := SessionPath(d.sessionId);
    label cleanup: {
      var st := d.stat(path);
      if st.None? {
        break cleanup;
      }
      var dev := st.value;
      steps := steps + [TakeDevice(sessionPath, dev.major, dev.minor)];
      label tryDirectAccess: {
        if d.take.TakeFailed? {
          break tryDirectAccess;
        }
        if !d.take.readable {
          break cleanup;
        }
        var controlledFd := d.take.controlledFd;
        if !d.take.paused {
          var o := ReadInputEvents(d.controlledReads, CONTROLLED_READ_LIMIT);
          steps := steps + [ReadDevice(controlledFd, CONTROLLED_READ_LIMIT, o.count)];
        }
        steps := steps + [ReleaseDevice(sessionPath, dev.major, dev.minor)];
        steps := steps + [CloseFd(controlledFd)];
        break cleanup;
      }
      steps := steps + [OpenDirect(path, true, true)];
      var deviceFd := d.directOpen(path);
      if deviceFd >= 0 {
        var o := ReadInputEvents(d.directReads, DIRECT_READ_LIMIT);
        steps := steps + [ReadDevice(deviceFd, DIRECT_READ_LIMIT, o.count)];
        steps := steps + [CloseFd(deviceFd)];
      }
    }
    return 0, steps;
  }

  /** The run gets as far as the `TakeDevice` call: every earlier step succeeded. */
  predicate ReachesTake(d: Demo) {
    && d.sessionCall >= 0
    && FirstKeyboard(d.probe).Some?
    && d.busCall >= 0
    && d.stat(Candidates[FirstKeyboard(d.probe).value]).Some?
  }

  /**
   * The return value: the negative result of the failing call when the
   * session lookup, the keyboard search or the bus connection fails, with
   * no device operation performed; 0 in every other case, whatever happens
   * to the device.
   */
  lemma DemoReturnValue(d: Demo)
    ensures var run := DemoSpec(d);
      && (d.sessionCall < 0 ==> run.ret == d.sessionCall)
      && (d.sessionCall >= 0 && FirstKeyboard(d.probe).None? ==> run.ret == -1)
      && (d.sessionCall >= 0 && FirstKeyboard(d.probe).Some? && d.busCall < 0 ==> run.ret == d.busCall)
      && (run.ret < 0 <==> d.sessionCall < 0 || FirstKeyboard(d.probe).None? || d.busCall < 0)
      && (run.ret < 0 ==> run.steps == [])
      && (run.ret >= 0 ==> run.ret == 0)
  {
  }

  /**
   * Device operations happen exactly when the take is reached, and the
   * first is `TakeDevice` on the session's object path with the numbers of
   * the first keyboard candidate.
   */
  lemma DemoStartsWithTake(d: Demo)
    ensures DemoSpec(d).steps != [] <==> ReachesTake(d)
    ensures ReachesTake(d) ==>
      var dev := d.stat(Candidates[FirstKeyboard(d.probe).value]).value;
      DemoSpec(d).steps[0] == TakeDevice(SessionPath(d.sessionId), dev.major, dev.minor)
  {
  }

  /**
   * After a take whose reply is read, the device is released with the same
   * numbers it was taken with and `close` is called on the descriptor the
   * reply named, last and in that order, whether or not it was paused; it is read, once, from that
   * descriptor with the limit 10, exactly when it is not paused.
   */
  lemma {:induction false} TakenDeviceIsReleased(d: Demo)
    requires ReachesTake(d) && d.take.TakeReplied? && d.take.readable
    ensures var s := DemoSpec(d).steps;
      && |s| == (if d.take.paused then 3 else 4)
      && s[0].TakeDevice?
      && s[|s| - 2] == ReleaseDevice(s[0].sessionPath, s[0].major, s[0].minor)
      && s[|s| - 1] == CloseFd(d.take.controlledFd)
      && (forall k :: 0 <= k < |s| ==> (s[k].ReadDevice? <==> k == 1 && !d.take.paused))
      && (!d.take.paused ==> s[1].fd == d.take.controlledFd && s[1].maxEvents == CONTROLLED_READ_LIMIT)
      && (forall k :: 0 <= k < |s| ==> !s[k].OpenDirect?)
  {
    var s := DemoSpec(d).steps;
    var dev := d.stat(Candidates[FirstKeyboard(d.probe).value]).value;
    var take := TakeDevice(SessionPath(d.sessionId), dev.major, dev.minor);
    var release := [ReleaseDevice(SessionPath(d.sessionId), dev.major, dev.minor), CloseFd(d.take.controlledFd)];
    if d.take.paused {
      assert s == [take] + release;
    } else {
      var read := ReadDevice(d.take.controlledFd, CONTROLLED_READ_LIMIT,
                             ReadLoop(d.controlledReads, 0, CONTROLLED_READ_LIMIT).count);
      assert s == [take] + [read] + release;
    }
  }

  /**
   * A failed `TakeDevice` falls back to opening the keyboard's node
   * directly, read-only and non-blocking, never calls `ReleaseDevice`, and reads it, with the limit 5,
   * and closes it only when that open succeeds.
   */
  lemma {:induction false} FallbackOnTakeFailure(d: Demo)
    requires ReachesTake(d) && d.take.TakeFailed?
    ensures var s := DemoSpec(d).steps;
      var path := Candidates[FirstKeyboard(d.probe).value];
      var fd := d.directOpen(path);
      && 2 <= |s| && s[1] == OpenDirect(path, true, true)
      && (forall k :: 0 <= k < |s| ==> !s[k].ReleaseDevice?)
      && (|s| == 4 <==> fd >= 0) && (|s| == 2 <==> fd < 0)
      && (fd >= 0 ==> s[2].ReadDevice? && s[2].fd == fd && s[2].maxEvents == DIRECT_READ_LIMIT
                      && s[3] == CloseFd(fd))
  {
    var s := DemoSpec(d).steps;
    var path := Candidates[FirstKeyboard(d.probe).value];
    var dev := d.stat(path).value;
    var take := TakeDevice(SessionPath(d.sessionId), dev.major, dev.minor);
    var fd := d.directOpen(path);
    if fd >= 0 {
      var read := ReadDevice(fd, DIRECT_READ_LIMIT, ReadLoop(d.directReads, 0, DIRECT_READ_LIMIT).count);
      assert s == [take, OpenDirect(path, true, true), read, CloseFd(fd)];
    } else {
      assert s == [take, OpenDirect(path, true, true)];
    }
  }

  /**
   * Events are read only from a descriptor logind granted and did not
   * pause, or, after a failed take, from a node the demo opened itself;
   * and no read reports more events than its limit.
   */
  lemma ReadsOnlyGrantedDescriptors(d: Demo)
    ensures var s := DemoSpec(d).steps;
      forall k :: 0 <= k < |s| && s[k].ReadDevice? ==>
        && ((d.take.TakeReplied? && d.take.readable && !d.take.paused
             && s[k].fd == d.take.controlledFd && s[k].maxEvents == CONTROLLED_READ_LIMIT)
            || (d.take.TakeFailed? && s[k].fd >= 0 && s[k].maxEvents == DIRECT_READ_LIMIT))
        && 0 <= s[k].count <= s[k].maxEvents
  {
    ReadInputEventsBounds(d.controlledReads, CONTROLLED_READ_LIMIT);
    ReadInputEventsBounds(d.directReads, DIRECT_READ_LIMIT);
    if ReachesTake(d) && d.take.TakeReplied? && d.take.readable {
      TakenDeviceIsReleased(d);
    } else if ReachesTake(d) && d.take.TakeFailed? {
      FallbackOnTakeFailure(d);
    }
  }

  /**
   * A take whose reply cannot be read goes straight to cleanup: no read,
   * no `ReleaseDevice` and no explicit close follow the `TakeDevice`.
   */
  lemma UnreadableReplyKeepsDevice(d: Demo)
    requires ReachesTake(d) && d.take.TakeReplied? && !d.take.readable
    ensures |DemoSpec(d).steps| == 1 && DemoSpec(d).steps[0].TakeDevice?
    ensures DemoSpec(d).ret == 0
  {
  }
}
