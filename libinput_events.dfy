/**
 * The event classification of the libseat+libinput reader (`print_event`):
 * a closed switch over libinput's event type tags with a default arm.
 *
 * The payload accessors of libinput are foreign calls; a raw event is the
 * record of what those accessors report. Floating-point payloads (motion
 * deltas, scroll values, touch coordinates already transformed by libinput
 * to a 1920x1080 surface) are carried through as opaque `real`s.
 */
module LibinputEvents {

  // Tags of `enum libinput_event_type` that the reader distinguishes.
  const DEVICE_ADDED: int := 1
  const DEVICE_REMOVED: int := 2
  const KEYBOARD_KEY: int := 300
  const POINTER_MOTION: int := 400
  const POINTER_BUTTON: int := 402
  const POINTER_SCROLL_WHEEL: int := 404
  const TOUCH_DOWN: int := 500
  const TOUCH_UP: int := 501
  const TOUCH_MOTION: int := 502

  // `LIBINPUT_KEY_STATE_PRESSED` and `LIBINPUT_BUTTON_STATE_PRESSED`.
  const KEY_STATE_PRESSED: int := 1
  const BUTTON_STATE_PRESSED: int := 1

  /** The type tags that have a case of their own in the switch. */
  predicate IsKnownTag(tag: int) {
    tag in {DEVICE_ADDED, DEVICE_REMOVED, KEYBOARD_KEY, POINTER_MOTION, POINTER_BUTTON,
            POINTER_SCROLL_WHEEL, TOUCH_DOWN, TOUCH_UP, TOUCH_MOTION}
  }

  /** What libinput's accessors report about one queued event. */
  datatype RawEvent = RawEvent(
    tag: int,
    device: string,
    key: int, keyState: int,
    button: int, buttonState: int,
    dx: real, dy: real,
    vertical: real, horizontal: real,
    slot: int, x: real, y: real)

  /** The classified event: one variant per case of the switch. */
  datatype InputEvent =
    | DeviceAdded(device: string)
    | DeviceRemoved(device: string)
    | KeyboardKey(device: string, key: int, pressed: bool)
    | PointerMotion(device: string, dx: real, dy: real)
    | PointerButton(device: string, button: int, pressed: bool)
    | ScrollWheel(device: string, vertical: real, horizontal: real)
    | TouchDown(device: string, slot: int, x: real, y: real)
    | TouchUp(device: string, slot: int)
    | TouchMotion(device: string, slot: int, x: real, y: real)
    | Other(device: string, tag: int)

  /** The type tag a classified event was produced from. */
  function TagOf(e: InputEvent): int {
    match e
    case DeviceAdded(_) => DEVICE_ADDED
    case DeviceRemoved(_) => DEVICE_REMOVED
    case KeyboardKey(_, _, _) => KEYBOARD_KEY
    case PointerMotion(_, _, _) => POINTER_MOTION
    case PointerButton(_, _, _) => POINTER_BUTTON
    case ScrollWheel(_, _, _) => POINTER_SCROLL_WHEEL
    case TouchDown(_, _, _, _) => TOUCH_DOWN
    case TouchUp(_, _) => TOUCH_UP
    case TouchMotion(_, _, _, _) => TOUCH_MOTION
    case Other(_, tag) => tag
  }

  /**
   * The classification switch. The tag is never lost: every known tag gets
   * its own variant, every other tag lands in `Other` carrying the number,
   * and a key or button is pressed exactly when its state is PRESSED.
   */
  function Classify(e: RawEvent): (r: InputEvent)
    ensures TagOf(r) == e.tag
    ensures r.device == e.device
    ensures r.Other? <==> !IsKnownTag(e.tag)
    ensures r.KeyboardKey? ==> r.key == e.key && (r.pressed <==> e.keyState == KEY_STATE_PRESSED)
    ensures r.PointerButton? ==> r.button == e.button && (r.pressed <==> e.buttonState == BUTTON_STATE_PRESSED)
    ensures r.PointerMotion? ==> r.dx == e.dx && r.dy == e.dy
    ensures r.ScrollWheel? ==> r.vertical == e.vertical && r.horizontal == e.horizontal
    ensures (r.TouchDown? || r.TouchMotion?) ==> r.slot == e.slot && r.x == e.x && r.y == e.y
    ensures r.TouchUp? ==> r.slot == e.slot
  {
    if e.tag == DEVICE_ADDED then DeviceAdded(e.device)
    else if e.tag == DEVICE_REMOVED then DeviceRemoved(e.device)
    else if e.tag == KEYBOARD_KEY then KeyboardKey(e.device, e.key, e.keyState == KEY_STATE_PRESSED)
    else if e.tag == POINTER_MOTION then PointerMotion(e.device, e.dx, e.dy)
    else if e.tag == POINTER_BUTTON then PointerButton(e.device, e.button, e.buttonState == BUTTON_STATE_PRESSED)
    else if e.tag == POINTER_SCROLL_WHEEL then ScrollWheel(e.device, e.vertical, e.horizontal)
    else if e.tag == TOUCH_DOWN then TouchDown(e.device, e.slot, e.x, e.y)
    else if e.tag == TOUCH_UP then TouchUp(e.device, e.slot)
    else if e.tag == TOUCH_MOTION then TouchMotion(e.device, e.slot, e.x, e.y)
    else Other(e.device, e.tag)
  }

  /** Classification of a queue of raw events, one output per input, in order. */
  function ClassifyAll(es: seq<RawEvent>): (r: seq<InputEvent>)
    ensures |r| == |es|
    ensures forall i :: 0 <= i < |es| ==> r[i] == Classify(es[i])
  {
    if es == [] then [] else [Classify(es[0])] + ClassifyAll(es[1..])
  }

  lemma {:induction false} ClassifyAllAppend(a: seq<RawEvent>, b: seq<RawEvent>)
    ensures ClassifyAll(a + b) == ClassifyAll(a) + ClassifyAll(b)
  {
    assert |ClassifyAll(a + b)| == |ClassifyAll(a) + ClassifyAll(b)|;
    forall i | 0 <= i < |a + b|
      ensures ClassifyAll(a + b)[i] == (ClassifyAll(a) + ClassifyAll(b))[i]
    {
      if i < |a| {
        assert (a + b)[i] == a[i];
      } else {
        assert (a + b)[i] == b[i - |a|];
      }
    }
  }

  /** Two raw events with distinct tags are never classified into the same variant. */
  lemma ClassifySeparatesTags(e1: RawEvent, e2: RawEvent)
    requires e1.tag != e2.tag
    ensures Classify(e1) != Classify(e2)
  {
  }
}
