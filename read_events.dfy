/**
 * `read_input_events` of the logind demo: a counting read loop over an
 * evdev descriptor. The descriptor is the script of what each `read` call
 * returns; the 10 ms sleep before a retry is not modelled.
 */
module ReadEvents {
  import opened Evdev

  const EAGAIN: int := 11
  const EWOULDBLOCK: int := 11
  /** `sizeof(struct input_event)` on 64-bit Linux. */
  const INPUT_EVENT_SIZE: int := 24

  /** One `read(fd, &ev, sizeof(ev))`: its return value, the event it filled in, and `errno`. */
  datatype ReadCall = ReadCall(bytes: int, event: EvdevEvent, errno: int)

  /** Why the loop stopped: the count reached `max_events`, a hard read error, or the script ended. */
  datatype ReadStop = LimitReached | HardError(errno: int) | OutOfReads

  /** The returned count, the lines printed, how many reads were made, and why the loop stopped. */
  datatype ReadOutcome = ReadOutcome(count: int, lines: seq<EventLine>, consumed: nat, stop: ReadStop)

  predicate WouldBlock(errno: int) {
    errno == EAGAIN || errno == EWOULDBLOCK
  }

  /** A read that is counted: a full event that is not a SYN. */
  predicate Counts(r: ReadCall) {
    r.bytes == INPUT_EVENT_SIZE && r.event.evType != EV_SYN
  }

  /** A read that ends the loop: an error other than would-block. */
  predicate IsHardError(r: ReadCall) {
    r.bytes < 0 && !WouldBlock(r.errno)
  }

  function Skip(o: ReadOutcome): ReadOutcome {
    o.(consumed := o.consumed + 1)
  }

  function Show(ev: EvdevEvent, o: ReadOutcome): ReadOutcome {
    o.(lines := [Describe(ev)] + o.lines, consumed := o.consumed + 1)
  }

  /** `while (count < max_events) { ... }` from a given count, over the remaining reads. */
  function ReadLoop(calls: seq<ReadCall>, count: int, max: int): ReadOutcome
    decreases |calls|
  {
    if !(count < max) then ReadOutcome(count, [], 0, LimitReached)
    else if calls == [] then ReadOutcome(count, [], 0, OutOfReads)
    else
      var r := calls[0];
      if r.bytes == INPUT_EVENT_SIZE then
        if r.event.evType != EV_SYN then Show(r.event, ReadLoop(calls[1..], count + 1, max))
        else Skip(ReadLoop(calls[1..], count, max))
      else if r.bytes < 0 then
        if WouldBlock(r.errno) then Skip(ReadLoop(calls[1..], count, max))
        else ReadOutcome(count, [], 1, HardError(r.errno))
      else Skip(ReadLoop(calls[1..], count, max))
  }

  /** `read_input_events(fd, max_events)`. */
  method ReadInputEvents(calls: seq<ReadCall>, maxEvents: Int32) returns (out: ReadOutcome)
    ensures out == ReadLoop(calls, 0, maxEvents)
  {
    var count := 0;
    var lines: seq<EventLine> := [];
    var i := 0;
    var stop := LimitReached;
    ghost var total := ReadLoop(calls, 0, maxEvents);
    while count < maxEvents
      invariant 0 <= i <= |calls|
      invariant var rest := ReadLoop(calls[i..], count, maxEvents);
        && total.count == rest.count && total.lines == lines + rest.lines
        && total.consumed == i + rest.consumed && total.stop == rest.stop
      invariant stop == LimitReached
      decreases |calls| - i
    {
      if i == |calls| {
        assert calls[i..] == [];
        stop := OutOfReads;
        break;
      }
      var r := calls[i];
      assert calls[i..][0] == r && calls[i..][1..] == calls[i + 1..];
      i := i + 1;
      if r.bytes == INPUT_EVENT_SIZE {
        if r.event.evType != EV_SYN {
          lines := lines + [Describe(r.event)];
          count := count + 1;
        }
      } else if r.bytes < 0 {
        if WouldBlock(r.errno) {
          continue;
        } else {
          stop := HardError(r.errno);
          break;
        }
      }
    }
    out := ReadOutcome(count, lines, i, stop);
  }

  /** The lines for the counted reads among `rs`, in order. */
  function CountedLines(rs: seq<ReadCall>): seq<EventLine>
    decreases |rs|
  {
    if rs == [] then []
    else (if Counts(rs[0]) then [Describe(rs[0].event)] else []) + CountedLines(rs[1..])
  }

  /**
   * From any start count below the limit, the loop adds one per counted read
   * and never passes the limit; the lines printed are exactly those of the
   * counted reads among the reads consumed, in order; and the stop reason
   * says what ended the loop.
   */
  lemma {:induction false} ReadLoopFacts(calls: seq<ReadCall>, count: int, max: int)
    requires count < max
    ensures var o := ReadLoop(calls, count, max);
      && o.count == count + |o.lines|
      && count <= o.count <= max
      && o.consumed <= |calls|
      && o.lines == CountedLines(calls[..o.consumed])
      && (o.stop == LimitReached ==> o.count == max)
      && (o.stop == OutOfReads ==> o.consumed == |calls| && o.count < max)
      && (o.stop.HardError? ==> 1 <= o.consumed && IsHardError(calls[o.consumed - 1])
                                && o.stop.errno == calls[o.consumed - 1].errno)
    decreases |calls|
  {
    if calls != [] {
      var r := calls[0];
      var o := ReadLoop(calls, count, max);
      if IsHardError(r) {
        assert calls[..1] == [r];
        assert CountedLines([r]) == [];
      } else {
        var next := if Counts(r) then count + 1 else count;
        var rest := ReadLoop(calls[1..], next, max);
        if next < max {
          ReadLoopFacts(calls[1..], next, max);
        } else {
          assert rest.consumed == 0 && rest.lines == [];
        }
        assert o.consumed == rest.consumed + 1;
        assert calls[..o.consumed] == [r] + calls[1..][..rest.consumed];
      }
    }
  }

  /**
   * `read_input_events` never returns more than `max_events`, returns 0 when
   * `max_events <= 0`, and returns the number of counted reads it made.
   */
  lemma ReadInputEventsBounds(calls: seq<ReadCall>, max: int)
    ensures var o := ReadLoop(calls, 0, max);
      && (max <= 0 ==> o.count == 0 && o.consumed == 0)
      && (0 < max ==> 0 <= o.count <= max)
      && o.count == |o.lines|
      && o.consumed <= |calls|
      && o.lines == CountedLines(calls[..o.consumed])
  {
    if 0 < max {
      ReadLoopFacts(calls, 0, max);
    }
  }

  /**
   * A SYN event, a would-block error, and a short or empty read are consumed
   * without being counted and without stopping the loop.
   */
  lemma ReadSkips(calls: seq<ReadCall>, count: int, max: int)
    requires count < max && calls != []
    requires !Counts(calls[0]) && !IsHardError(calls[0])
    ensures ReadLoop(calls, count, max) == Skip(ReadLoop(calls[1..], count, max))
  {
  }

  /** A hard read error stops the loop with the count so far. */
  lemma ReadStopsOnHardError(calls: seq<ReadCall>, count: int, max: int)
    requires count < max && calls != [] && IsHardError(calls[0])
    ensures ReadLoop(calls, count, max) == ReadOutcome(count, [], 1, HardError(calls[0].errno))
  {
  }
}
