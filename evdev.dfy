/**
 * The evdev decoding tables of the logind demo (`event_type_name`,
 * `key_name` and the key-value label of `read_input_events`), over the
 * numeric codes of the Linux input-event-codes header.
 *
 * Each table comes with an independent inverse (`EventTypeCode`,
 * `ParseKeyName`, `ParseDecimal`) and the round trip is proved, so that no
 * two codes share a name.
 */
module Evdev {
  import opened Wrappers

  // Event types.
  const EV_SYN: int := 0
  const EV_KEY: int := 1
  const EV_REL: int := 2
  const EV_ABS: int := 3
  const EV_MSC: int := 4
  const EV_LED: int := 0x11
  const EV_SND: int := 0x12
  const EV_REP: int := 0x14

  // Key and button codes.
  const KEY_ESC: int := 1
  const KEY_ENTER: int := 28
  const KEY_A: int := 30
  const KEY_LEFTSHIFT: int := 42
  const KEY_C: int := 46
  const KEY_B: int := 48
  const KEY_RIGHTSHIFT: int := 54
  const KEY_SPACE: int := 57
  const BTN_LEFT: int := 0x110
  const BTN_RIGHT: int := 0x111
  const BTN_MIDDLE: int := 0x112

  /** `static char buf[32]` that holds a formatted fallback key name. */
  const KEY_NAME_BUFFER_SIZE: int := 32

  /** A C `int`. */
  type Int32 = x: int | -0x8000_0000 <= x < 0x8000_0000

  /** A `__u16`. */
  type U16 = x: int | 0 <= x < 0x1_0000

  /** `struct input_event` without its timestamp: `__u16 type, code; __s32 value`. */
  datatype EvdevEvent = EvdevEvent(evType: U16, code: U16, value: Int32)

  predicate IsNamedType(t: int) {
    t in {EV_SYN, EV_KEY, EV_REL, EV_ABS, EV_MSC, EV_LED, EV_SND, EV_REP}
  }

  /** Event type names; the inverse of `EventTypeName` on the named types. */
  function EventTypeCode(name: string): Option<int> {
    if name == "SYN" then Some(EV_SYN)
    else if name == "KEY" then Some(EV_KEY)
    else if name == "REL" then Some(EV_REL)
    else if name == "ABS" then Some(EV_ABS)
    else if name == "MSC" then Some(EV_MSC)
    else if name == "LED" then Some(EV_LED)
    else if name == "SND" then Some(EV_SND)
    else if name == "REP" then Some(EV_REP)
    else None
  }

  /**
   * `event_type_name`: eight named types, each with its own name, and
   * "UNKNOWN" for every other value.
   */
  function EventTypeName(t: int): (name: string)
    ensures name == "UNKNOWN" <==> !IsNamedType(t)
    ensures EventTypeCode(name) == if IsNamedType(t) then Some(t) else None
  {
    if t == EV_SYN then "SYN"
    else if t == EV_KEY then "KEY"
    else if t == EV_REL then "REL"
    else if t == EV_ABS then "ABS"
    else if t == EV_MSC then "MSC"
    else if t == EV_LED then "LED"
    else if t == EV_SND then "SND"
    else if t == EV_REP then "REP"
    else "UNKNOWN"
  }

  predicate IsNamedKey(code: int) {
    code in {KEY_A, KEY_B, KEY_C, KEY_SPACE, KEY_ENTER, KEY_ESC, KEY_LEFTSHIFT,
             KEY_RIGHTSHIFT, BTN_LEFT, BTN_RIGHT, BTN_MIDDLE}
  }

  // ---- Decimal rendering, as `snprintf("%d")` writes it, and its parser.

  predicate IsDigit(c: char) {
    '0' <= c <= '9'
  }

  predicate AllDigits(s: string) {
    forall i :: 0 <= i < |s| ==> IsDigit(s[i])
  }

  function DigitChar(d: int): (c: char)
    requires 0 <= d < 10
    ensures IsDigit(c) && c as int - '0' as int == d
  {
    (d + '0' as int) as char
  }

  /** The digits of a natural number, most significant first, without leading zeros. */
  function NatDigits(n: nat): (s: string)
    ensures 1 <= |s| && AllDigits(s)
    ensures |s| > 1 ==> s[0] != '0'
    decreases n
  {
    if n < 10 then [DigitChar(n)] else NatDigits(n / 10) + [DigitChar(n % 10)]
  }

  /** `%d`: a minus sign for negative values, then the digits. */
  function Decimal(n: int): string {
    if n < 0 then "-" + NatDigits(-n) else NatDigits(n)
  }

  /** The value of a string of decimal digits. */
  function DigitsValue(s: string): nat
    requires AllDigits(s)
    decreases |s|
  {
    if s == [] then 0
    else DigitsValue(s[..|s| - 1]) * 10 + (s[|s| - 1] as int - '0' as int)
  }

  /** Reads back what `%d` writes. */
  function ParseDecimal(s: string): Option<int> {
    if 2 <= |s| && s[0] == '-' && AllDigits(s[1..]) then Some(-(DigitsValue(s[1..]) as int))
    else if 1 <= |s| && AllDigits(s) then Some(DigitsValue(s))
    else None
  }

  lemma {:induction false} NatDigitsRoundTrip(n: nat)
    ensures DigitsValue(NatDigits(n)) == n
    decreases n
  {
    if n >= 10 {
      var s := NatDigits(n);
      assert s[..|s| - 1] == NatDigits(n / 10);
      NatDigitsRoundTrip(n / 10);
    }
  }

  /** Decimal rendering loses nothing: parsing it gives the number back. */
  lemma DecimalRoundTrip(n: int)
    ensures ParseDecimal(Decimal(n)) == Some(n)
  {
    if n < 0 {
      var d := NatDigits(-n);
      var s := "-" + d;
      assert s[0] == '-' && s[1..] == d;
      NatDigitsRoundTrip(-n);
      assert ParseDecimal(s) == Some(-(DigitsValue(d) as int));
    } else {
      var d := NatDigits(n);
      assert IsDigit(d[0]);
      NatDigitsRoundTrip(n);
      assert ParseDecimal(d) == Some(DigitsValue(d));
    }
  }

  function Pow10(k: nat): nat {
    if k == 0 then 1 else 10 * Pow10(k - 1)
  }

  lemma {:induction false} NatDigitsLength(n: nat, k: nat)
    requires 1 <= k && n < Pow10(k)
    ensures |NatDigits(n)| <= k
    decreases k
  {
    if n >= 10 {
      assert Pow10(k) == 10 * Pow10(k - 1);
      NatDigitsLength(n / 10, k - 1);
    }
  }

  /** A C `int` prints in at most eleven characters ("-2147483648"). */
  lemma DecimalOfInt32Length(n: Int32)
    ensures 1 <= |Decimal(n)| <= 11
  {
    assert Pow10(10) == 10_000_000_000 by {
      assert Pow10(2) == 100;
      assert Pow10(5) == 100_000;
    }
    if n < 0 {
      NatDigitsLength(-(n as int), 10);
    } else {
      NatDigitsLength(n, 10);
    }
  }

  // ---- Key names.

  /** Key names; the inverse of `KeyName`. */
  function ParseKeyName(name: string): Option<int> {
    if name == "KEY_A" then Some(KEY_A)
    else if name == "KEY_B" then Some(KEY_B)
    else if name == "KEY_C" then Some(KEY_C)
    else if name == "KEY_SPACE" then Some(KEY_SPACE)
    else if name == "KEY_ENTER" then Some(KEY_ENTER)
    else if name == "KEY_ESC" then Some(KEY_ESC)
    else if name == "KEY_LEFTSHIFT" then Some(KEY_LEFTSHIFT)
    else if name == "KEY_RIGHTSHIFT" then Some(KEY_RIGHTSHIFT)
    else if name == "BTN_LEFT" then Some(BTN_LEFT)
    else if name == "BTN_RIGHT" then Some(BTN_RIGHT)
    else if name == "BTN_MIDDLE" then Some(BTN_MIDDLE)
    else if 4 <= |name| && name[..4] == "KEY_" then ParseDecimal(name[4..])
    else None
  }

  /** A fallback name "KEY_<digits>" never spells one of the fixed names. */
  lemma FallbackIsNotFixed(n: int)
    ensures var name := "KEY_" + Decimal(n);
      && name[..4] == "KEY_" && name[4..] == Decimal(n)
      && name != "KEY_A" && name != "KEY_B" && name != "KEY_C" && name != "KEY_SPACE"
      && name != "KEY_ENTER" && name != "KEY_ESC" && name != "KEY_LEFTSHIFT"
      && name != "KEY_RIGHTSHIFT" && name != "BTN_LEFT" && name != "BTN_RIGHT" && name != "BTN_MIDDLE"
  {
    var name := "KEY_" + Decimal(n);
    assert name[4] == Decimal(n)[0];
    assert Decimal(n)[0] == '-' || IsDigit(Decimal(n)[0]);
    assert name[0] == 'K';
  }

  /**
   * `key_name`: the fixed name for the eleven listed codes, "KEY_" and the
   * decimal code otherwise. The name always fits, with its terminating NUL,
   * in the 32-byte buffer, and it identifies the code.
   */
  function KeyName(code: Int32): (name: string)
    ensures |name| + 1 <= KEY_NAME_BUFFER_SIZE
    ensures ParseKeyName(name) == Some(code)
    ensures 4 <= |name| && (IsNamedKey(code) <==> ParseDecimal(name[4..]).None?)
    ensures !IsNamedKey(code) ==> name == "KEY_" + Decimal(code)
  {
    if code == KEY_A then "KEY_A"
    else if code == KEY_B then "KEY_B"
    else if code == KEY_C then "KEY_C"
    else if code == KEY_SPACE then "KEY_SPACE"
    else if code == KEY_ENTER then "KEY_ENTER"
    else if code == KEY_ESC then "KEY_ESC"
    else if code == KEY_LEFTSHIFT then "KEY_LEFTSHIFT"
    else if code == KEY_RIGHTSHIFT then "KEY_RIGHTSHIFT"
    else if code == BTN_LEFT then "BTN_LEFT"
    else if code == BTN_RIGHT then "BTN_RIGHT"
    else if code == BTN_MIDDLE then "BTN_MIDDLE"
    else
      DecimalOfInt32Length(code);
      FallbackIsNotFixed(code);
      DecimalRoundTrip(code);
      "KEY_" + Decimal(code)
  }

  /** Distinct codes have distinct names. */
  lemma KeyNameInjective(a: Int32, b: Int32)
    requires KeyName(a) == KeyName(b)
    ensures a == b
  {
  }

  /** The label of a key event's value: 0 is a release, 1 a press, anything else a repeat. */
  function KeyValueLabel(value: int): (text: string)
    ensures text == "RELEASE" <==> value == 0
    ensures text == "PRESS" <==> value == 1
    ensures text == "REPEAT" <==> value != 0 && value != 1
  {
    if value != 0 then (if value == 1 then "PRESS" else "REPEAT") else "RELEASE"
  }

  /** What is printed for one counted event: its type name, and for a key event the key's name and label. */
  datatype EventLine = EventLine(event: EvdevEvent, typeName: string, keyName: Option<string>, keyLabel: Option<string>)

  function Describe(ev: EvdevEvent): (line: EventLine)
    ensures line.event == ev && EventTypeCode(line.typeName) == (if IsNamedType(ev.evType) then Some(ev.evType) else None)
    ensures line.keyName.Some? <==> ev.evType == EV_KEY
    ensures line.keyLabel.Some? <==> ev.evType == EV_KEY
    ensures line.keyName.Some? ==> ParseKeyName(line.keyName.value) == Some(ev.code)
    ensures line.typeName == EventTypeName(ev.evType)
    ensures line.keyLabel.Some? ==> line.keyLabel.value == KeyValueLabel(ev.value)
    ensures line.keyName.Some? ==> line.keyName.value == KeyName(ev.code)
  {
    if ev.evType == EV_KEY then
      EventLine(ev, EventTypeName(ev.evType), Some(KeyName(ev.code)), Some(KeyValueLabel(ev.value)))
    else EventLine(ev, EventTypeName(ev.evType), None, None)
  }
}
