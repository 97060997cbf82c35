/**
 * `find_keyboard_device` of the logind demo: probe five candidate device
 * nodes in order and copy the first that reports key events into the
 * caller's buffer, bounded and NUL-terminated.
 *
 * `open` followed by the `EVIOCGBIT` ioctl is abstracted as a `Probe`
 * outcome per path; closing the probe descriptors is not tracked.
 */
module KeyboardProbe {
  import opened Wrappers
  import opened Evdev

  const NUL: char := '\0'

  const Candidates: seq<string> := [
    "/dev/input/event0",
    "/dev/input/event1",
    "/dev/input/event2",
    "/dev/input/event3",
    "/dev/input/event4"
  ]

  /** What opening a candidate and reading its event-type bitmask gives. */
  datatype Probe = OpenFailed | Opened(ioctlOk: bool, evbit: bv64)

  /** The candidate opened, the ioctl succeeded, and the EV_KEY bit is set. */
  predicate SupportsKeys(p: Probe) {
    p.Opened? && p.ioctlOk && p.evbit & (1 << EV_KEY) != 0
  }

  /** The first candidate from index `from` on that supports key events. */
  function FirstKeyboardFrom(probe: string -> Probe, from: nat): (r: Option<nat>)
    requires from <= |Candidates|
    ensures r.Some? ==> from <= r.value < |Candidates|
    decreases |Candidates| - from
  {
    if from == |Candidates| then None
    else if SupportsKeys(probe(Candidates[from])) then Some(from)
    else FirstKeyboardFrom(probe, from + 1)
  }

  function FirstKeyboard(probe: string -> Probe): (r: Option<nat>)
    ensures r.Some? ==> r.value < |Candidates|
  {
    FirstKeyboardFrom(probe, 0)
  }

  /**
   * The search finds a candidate exactly when one supports key events, and
   * what it finds is the first such candidate in order.
   */
  lemma {:induction false} FirstKeyboardFromIsFirst(probe: string -> Probe, from: nat)
    requires from <= |Candidates|
    ensures var r := FirstKeyboardFrom(probe, from);
      && (r.None? <==> forall i :: from <= i < |Candidates| ==> !SupportsKeys(probe(Candidates[i])))
      && (r.Some? ==> from <= r.value < |Candidates| && SupportsKeys(probe(Candidates[r.value]))
                      && forall j :: from <= j < r.value ==> !SupportsKeys(probe(Candidates[j])))
    decreases |Candidates| - from
  {
    if from < |Candidates| && !SupportsKeys(probe(Candidates[from])) {
      FirstKeyboardFromIsFirst(probe, from + 1);
    }
  }

  lemma FirstKeyboardIsFirst(probe: string -> Probe)
    ensures var r := FirstKeyboard(probe);
      && (r.None? <==> forall i :: 0 <= i < |Candidates| ==> !SupportsKeys(probe(Candidates[i])))
      && (r.Some? ==> r.value < |Candidates| && SupportsKeys(probe(Candidates[r.value]))
                      && forall j :: 0 <= j < r.value ==> !SupportsKeys(probe(Candidates[j])))
  {
    FirstKeyboardFromIsFirst(probe, 0);
  }

  predicate NoNul(s: string) {
    forall k :: 0 <= k < |s| ==> s[k] != NUL
  }

  /**
   * The buffer after `strncpy(buf, src, size - 1); buf[size - 1] = '\0'`:
   * the first `size - 1` characters of `src`, NUL-padded, and a NUL last.
   */
  function NulTerminatedCopy(src: string, size: nat): seq<char>
    requires 1 <= size
  {
    seq(size, k requires 0 <= k < size => if k < |src| && k < size - 1 then src[k] else NUL)
  }

  /** The C string a buffer holds: everything before its first NUL. */
  function CString(buf: seq<char>): string
    decreases |buf|
  {
    if buf == [] || buf[0] == NUL then [] else [buf[0]] + CString(buf[1..])
  }

  lemma {:induction false} CStringUpTo(buf: seq<char>, n: nat)
    requires n <= |buf| && NoNul(buf[..n]) && (n == |buf| || buf[n] == NUL)
    ensures CString(buf) == buf[..n]
    decreases n
  {
    if n > 0 {
      assert buf[0] == buf[..n][0];
      assert buf[1..][..n - 1] == buf[..n][1..];
      CStringUpTo(buf[1..], n - 1);
    }
  }

  /**
   * The copy always holds a C string, and reading it back gives the source
   * truncated to `size - 1` characters; a source that fits comes back whole.
   */
  lemma CopyReadsBack(src: string, size: nat)
    requires 1 <= size && NoNul(src)
    ensures var buf := NulTerminatedCopy(src, size);
      && buf[size - 1] == NUL
      && CString(buf) == src[..if |src| < size - 1 then |src| else size - 1]
      && (|src| < size ==> CString(buf) == src)
  {
    var buf := NulTerminatedCopy(src, size);
    var n := if |src| < size - 1 then |src| else size - 1;
    assert buf[..n] == src[..n];
    CStringUpTo(buf, n);
  }

  /** `strncpy(dst, src, n)` for a C string `src`: copy up to `n` characters, then NUL-pad to `n`. */
  method StrNCopy(dst: array<char>, src: string, n: nat)
    requires n <= dst.Length && NoNul(src)
    modifies dst
    ensures forall k :: 0 <= k < n ==> dst[k] == if k < |src| then src[k] else NUL
    ensures forall k :: n <= k < dst.Length ==> dst[k] == old(dst[k])
  {
    var k := 0;
    while k < n && k < |src|
      invariant 0 <= k <= n && k <= |src|
      invariant forall j :: 0 <= j < k ==> dst[j] == src[j]
      invariant forall j :: k <= j < dst.Length ==> dst[j] == old(dst[j])
    {
      dst[k] := src[k];
      k := k + 1;
    }
    while k < n
      invariant 0 <= k <= n
      invariant forall j :: 0 <= j < k ==> dst[j] == if j < |src| then src[j] else NUL
      invariant forall j :: k <= j < dst.Length ==> dst[j] == old(dst[j])
    {
      dst[k] := NUL;
      k := k + 1;
    }
  }

  /**
   * `find_keyboard_device(device_path, path_size)`: 0 and the first
   * candidate that supports key events copied into the buffer, or -1 and
   * the buffer untouched.
   */
  method FindKeyboardDevice(devicePath: array<char>, probe: string -> Probe) returns (r: int)
    requires 1 <= devicePath.Length
    modifies devicePath
    ensures r == (if FirstKeyboard(probe).Some? then 0 else -1)
    ensures FirstKeyboard(probe).Some? ==>
      (FirstKeyboard(probe).value < |Candidates|
       && devicePath[..] == NulTerminatedCopy(Candidates[FirstKeyboard(probe).value], devicePath.Length))
    ensures FirstKeyboard(probe).None? ==> devicePath[..] == old(devicePath[..])
  {
    var i := 0;
    while i < |Candidates|
      invariant 0 <= i <= |Candidates|
      invariant FirstKeyboardFrom(probe, i) == FirstKeyboard(probe)
      invariant devicePath[..] == old(devicePath[..])
    {
      var p := probe(Candidates[i]);
      if p.Opened? {
        if p.ioctlOk {
          if p.evbit & (1 << EV_KEY) != 0 {
            var size := devicePath.Length;
            StrNCopy(devicePath, Candidates[i], size - 1);
            devicePath[size - 1] := NUL;
            assert devicePath[..] == NulTerminatedCopy(Candidates[i], size);
            return 0;
          }
        }
      }
      i := i + 1;
    }
    return -1;
  }
}
