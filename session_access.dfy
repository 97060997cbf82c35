/**
 * The project's own libinput interface (`src/input/mod.rs`): device nodes
 * are opened only from inside a login session, as judged by the session
 * environment variables, and a failed open is reported as an errno.
 *
 * The process environment is a map from names to values, and the open is
 * an abstract function of the path and the requested options.
 */
module SessionAccess {
  import opened Wrappers

  const EIO: int := 5
  const EACCES: int := 13

  /** The variables whose presence marks a session. */
  const SessionVars: seq<string> := ["XDG_SESSION_ID", "XDG_SESSION_TYPE", "XDG_RUNTIME_DIR"]

  /** A set environment variable: valid Unicode, or not. */
  datatype EnvValue = Unicode(text: string) | NotUnicode

  type Environment = map<string, EnvValue>

  /** `std::env::var(name).is_ok()`: set, and valid Unicode. */
  predicate VarIsOk(env: Environment, name: string) {
    name in env && env[name].Unicode?
  }

  /** `names.iter().any(|var| std::env::var(var).is_ok())`. */
  function AnyVarOk(env: Environment, names: seq<string>): (r: bool)
    ensures r <==> exists i :: 0 <= i < |names| && VarIsOk(env, names[i])
    decreases |names|
  {
    if names == [] then false
    else VarIsOk(env, names[0]) || AnyVarOk(env, names[1..])
  }

  predicate HasSession(env: Environment) {
    AnyVarOk(env, SessionVars)
  }

  /** The options an `OpenOptions` builder carries when it opens. */
  datatype OpenOptions = OpenOptions(read: bool, write: bool, customFlags: int)

  /** `OpenOptions::open`: the new descriptor, or an error that may carry an OS error number. */
  datatype OpenResult = Opened(fd: nat) | OpenError(rawOsError: Option<int>)

  /** The options `open_via_logind` opens with: read and write, plus the caller's flags. */
  function ReadWrite(flags: int): (o: OpenOptions)
    ensures o.read && o.write && o.customFlags == flags
  {
    OpenOptions(true, true, flags)
  }

  /** `e.raw_os_error().unwrap_or(EIO)`. */
  function Errno(raw: Option<int>): (e: int)
    ensures raw.Some? ==> e == raw.value
    ensures raw.None? ==> e == EIO
  {
    match raw
    case Some(n) => n
    case None => EIO
  }

  /** `open_via_logind(path, flags)`, with `open` standing for the file system. */
  function OpenViaLogind(env: Environment, path: string, flags: int,
                         open: (string, OpenOptions) -> OpenResult): (r: Result<nat, int>)
    ensures !HasSession(env) ==> r == Failure(EACCES)
    ensures HasSession(env) ==> (r.Success? <==> open(path, ReadWrite(flags)).Opened?)
    ensures r.Success? ==> open(path, ReadWrite(flags)) == Opened(r.value)
    ensures HasSession(env) && r.Failure? ==> r.error == Errno(open(path, ReadWrite(flags)).rawOsError)
  {
    if !HasSession(env) then Failure(EACCES)
    else
      match open(path, ReadWrite(flags))
      case Opened(fd) => Success(fd)
      case OpenError(raw) => Failure(Errno(raw))
  }

  /**
   * Outside a session nothing is opened: the result is EACCES whatever the
   * file system would have done.
   */
  lemma RefusalIgnoresFileSystem(env: Environment, path: string, flags: int,
                                 open1: (string, OpenOptions) -> OpenResult,
                                 open2: (string, OpenOptions) -> OpenResult)
    requires !HasSession(env)
    ensures OpenViaLogind(env, path, flags, open1) == OpenViaLogind(env, path, flags, open2) == Failure(EACCES)
  {
  }

  /**
   * Inside a session the only open attempted is of `path`, read and write,
   * with the caller's flags: two file systems that agree on that one open
   * give the same result.
   */
  lemma OnlyReadWriteOpen(env: Environment, path: string, flags: int,
                          open1: (string, OpenOptions) -> OpenResult,
                          open2: (string, OpenOptions) -> OpenResult)
    requires open1(path, ReadWrite(flags)) == open2(path, ReadWrite(flags))
    ensures OpenViaLogind(env, path, flags, open1) == OpenViaLogind(env, path, flags, open2)
  {
  }

  /** Any one of the three variables is enough; none of them is required. */
  lemma AnyOneVariableSuffices(env: Environment, i: nat)
    requires i < |SessionVars| && VarIsOk(env, SessionVars[i])
    ensures HasSession(env)
  {
  }

  /**
   * A variable that is set but not valid Unicode does not count: when every
   * session variable is unset or non-Unicode, the gate stays closed.
   */
  lemma NonUnicodeIsNoSession(env: Environment)
    requires forall n :: n in SessionVars && n in env ==> env[n].NotUnicode?
    ensures !HasSession(env)
  {
  }

  /** Setting more variables never closes the gate. */
  lemma {:induction false} AnyVarOkMonotone(env: Environment, more: Environment, names: seq<string>)
    requires forall n :: n in env ==> n in more && more[n] == env[n]
    requires AnyVarOk(env, names)
    ensures AnyVarOk(more, names)
    decreases |names|
  {
    if !VarIsOk(env, names[0]) {
      AnyVarOkMonotone(env, more, names[1..]);
    }
  }

  /**
   * The outcome of `Interface::open_restricted`: the result handed to
   * libinput, and the descriptors the caller owns afterwards.
   */
  datatype Opening = Opening(result: Result<nat, int>, owned: set<nat>)

  /**
   * `Interface::open_restricted`: exactly `open_via_logind` on the same
   * arguments; a descriptor it hands out joins the caller's owned set, and
   * a failure leaves that set as it was.
   */
  function OpenRestricted(owned: set<nat>, env: Environment, path: string, flags: int,
                          open: (string, OpenOptions) -> OpenResult): (o: Opening)
    ensures !HasSession(env) ==> o.result == Failure(EACCES)
    ensures HasSession(env) ==> (o.result.Success? <==> open(path, ReadWrite(flags)).Opened?)
    ensures o.result.Success? ==> open(path, ReadWrite(flags)) == Opened(o.result.value)
    ensures HasSession(env) && o.result.Failure? ==> o.result.error == Errno(open(path, ReadWrite(flags)).rawOsError)
    ensures o.result.Success? ==> o.owned == owned + {o.result.value} && o.result.value in o.owned
    ensures o.result.Failure? ==> o.owned == owned
  {
    var r := OpenViaLogind(env, path, flags, open);
    Opening(r, if r.Success? then owned + {r.value} else owned)
  }

  /**
   * `Interface::close_restricted`: the descriptor is consumed and dropped,
   * so it leaves the set of descriptors the caller owns.
   */
  function CloseRestricted(owned: set<nat>, fd: nat): (rest: set<nat>)
    requires fd in owned
    ensures fd !in rest && rest + {fd} == owned
  {
    owned - {fd}
  }

  /**
   * Open and close balance each other: closing what a successful open
   * handed out returns the owned set to what it was, and outside a session
   * the owned set never grows. The kernel never hands out a descriptor that
   * is still open, so the new one is not already owned.
   */
  lemma OpenThenCloseRestores(owned: set<nat>, env: Environment, path: string, flags: int,
                              open: (string, OpenOptions) -> OpenResult)
    requires forall fd :: fd in owned ==> open(path, ReadWrite(flags)) != Opened(fd)
    ensures var o := OpenRestricted(owned, env, path, flags, open);
      && (o.result.Success? ==> CloseRestricted(o.owned, o.result.value) == owned)
      && (!HasSession(env) ==> o.owned == owned)
  {
  }
}
