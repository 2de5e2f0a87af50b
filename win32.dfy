/**
 * An abstract model of the Windows facilities OptForAudio touches.
 *
 * The operating system is reduced to four settings (thread execution state,
 * screensaver timeout, the processor idle-disable index of the active power
 * scheme, the Wi-Fi interface), a table of open handles, the set of child
 * processes still running, and a log of every call the program makes. The
 * outcome of each fallible call is not decided here: it is a parameter of the
 * method that models the call.
 */
module Win32 {

  /** UINT / DWORD. */
  newtype uint32 = x: int | 0 <= x < 0x1_0000_0000

  /** EXECUTION_STATE, a bit mask. */
  type ExecutionState = bv32

  const ES_SYSTEM_REQUIRED: ExecutionState := 0x0000_0001
  const ES_DISPLAY_REQUIRED: ExecutionState := 0x0000_0002
  const ES_CONTINUOUS: ExecutionState := 0x8000_0000

  /** HANDLE; 0 is the null handle. */
  type Handle = nat

  const NULL: Handle := 0

  /** The most handles one WaitForMultipleObjects call accepts. */
  const MAXIMUM_WAIT_OBJECTS: nat := 64

  /** What an open handle refers to. */
  datatype HandleKind =
    | ShellProcess   // the desktop shell's process, opened for query
    | ShellToken     // the shell's access token, opened with TOKEN_DUPLICATE
    | PrimaryToken   // the primary token duplicated from it
    | ChildProcess   // a launched program's process
    | ChildThread    // a launched program's first thread

  /** PROCESS_INFORMATION: the two handles a successful create returns. */
  datatype ProcessInformation = ProcessInformation(hProcess: Handle, hThread: Handle)

  /** A PROCESS_INFORMATION after ZeroMemory. */
  const ZeroedProcessInformation := ProcessInformation(NULL, NULL)

  /** The system-wide settings the program changes. */
  datatype Setting = ExecutionStateFlags | ScreenSaveTimeout | ProcessorIdleDisable | WifiInterface

  datatype Settings = Settings(
    execState: ExecutionState,
    screenSaveTimeout: uint32,
    idleDisable: uint32,
    wifiEnabled: bool)

  /** The status lines the program reports. */
  datatype Status =
    | Optimizing
    | StartingPrograms
    | FailedToLaunch(path: string)
    | ProgramNotFound(path: string)
    | WaitingForExit
    | Restoring
    | Completed
    | GetShellWindowFailed
    | GetWindowThreadProcessIdFailed
    | OpenProcessFailed
    | OpenProcessTokenFailed
    | DuplicateTokenExFailed
    | CreateProcessFailed

  /** One entry of the call log; fallible calls carry their outcome. */
  datatype Call =
    | ReportStatus(msg: Status)
    | SetThreadExecutionState(flags: ExecutionState)
    | GetScreenSaveTimeout(ok: bool)
    | SetScreenSaveTimeout(timeout: uint32)
    | WriteProcessorIdleDisable(value: uint32)   // get active scheme, write the AC index, set the scheme
    | NetshSetWifi(enabled: bool)                // "start /min netsh interface set interface ..."
    | PathFileExists(path: string, found: bool)
    | ExpandEnvironmentStrings(path: string)
    | GetShellWindow(ok: bool)
    | GetWindowThreadProcessId(ok: bool)
    | OpenProcess(ok: bool)
    | OpenProcessToken(ok: bool)
    | DuplicateTokenEx(ok: bool)
    | CreateProcessWithToken(cmdline: string, ok: bool)
    | CreateProcess(cmdline: string, ok: bool)
    | CloseHandle(kind: HandleKind)
    | Sleep(ms: nat)
    | WaitForAll(count: nat)

  /** The effect of one call on the settings. */
  function Apply(s: Settings, c: Call): Settings
  {
    match c
    case SetThreadExecutionState(flags) => s.(execState := flags)
    case SetScreenSaveTimeout(timeout) => s.(screenSaveTimeout := timeout)
    case WriteProcessorIdleDisable(value) => s.(idleDisable := value)
    case NetshSetWifi(enabled) => s.(wifiEnabled := enabled)
    case _ => s
  }

  /** The settings after a log of calls, starting from s. */
  function Replay(s: Settings, t: seq<Call>): Settings
    decreases |t|
  {
    if t == [] then s else Replay(Apply(s, t[0]), t[1..])
  }

  /** Concatenation of f over a log. */
  function FlatMap<T>(t: seq<Call>, f: Call -> seq<T>): seq<T>
  {
    if t == [] then [] else f(t[0]) + FlatMap(t[1..], f)
  }

  /** The setting a call writes, if any. */
  function WriteOf(c: Call): seq<Setting>
  {
    match c
    case SetThreadExecutionState(_) => [ExecutionStateFlags]
    case SetScreenSaveTimeout(_) => [ScreenSaveTimeout]
    case WriteProcessorIdleDisable(_) => [ProcessorIdleDisable]
    case NetshSetWifi(_) => [WifiInterface]
    case _ => []
  }

  /** The settings written by a log, in order. */
  function Writes(t: seq<Call>): seq<Setting>
  {
    FlatMap(t, WriteOf)
  }

  /** The handles a call opens. */
  function OpenOf(c: Call): seq<HandleKind>
  {
    match c
    case OpenProcess(true) => [ShellProcess]
    case OpenProcessToken(true) => [ShellToken]
    case DuplicateTokenEx(true) => [PrimaryToken]
    case CreateProcessWithToken(_, true) => [ChildProcess, ChildThread]
    case CreateProcess(_, true) => [ChildProcess, ChildThread]
    case _ => []
  }

  /** The handle a call closes, if any. */
  function CloseOf(c: Call): seq<HandleKind>
  {
    match c
    case CloseHandle(k) => [k]
    case _ => []
  }

  /** The command line a process-creating call runs, if any. */
  function CreateOf(c: Call): seq<string>
  {
    match c
    case CreateProcessWithToken(cmdline, _) => [cmdline]
    case CreateProcess(cmdline, _) => [cmdline]
    case _ => []
  }

  /** The command lines a log tries to start, in order. */
  function Creates(t: seq<Call>): seq<string>
  {
    FlatMap(t, CreateOf)
  }

  /** The kinds of the handles a log opens, in order. */
  function Opens(t: seq<Call>): seq<HandleKind>
  {
    FlatMap(t, OpenOf)
  }

  /** The kinds of the handles a log closes, in order. */
  function Closes(t: seq<Call>): seq<HandleKind>
  {
    FlatMap(t, CloseOf)
  }

  /** The command line a call expands, if any: the first call of every launch. */
  function ExpandOf(c: Call): seq<string>
  {
    match c
    case ExpandEnvironmentStrings(path) => [path]
    case _ => []
  }

  /** The command lines a log launches, in order. */
  function Expansions(t: seq<Call>): seq<string>
  {
    FlatMap(t, ExpandOf)
  }

  lemma {:induction false} FlatMapAppend<T>(a: seq<Call>, b: seq<Call>, f: Call -> seq<T>)
    ensures FlatMap(a + b, f) == FlatMap(a, f) + FlatMap(b, f)
  {
    if a == [] {
      assert a + b == b;
    } else {
      assert (a + b)[1..] == a[1..] + b;
      FlatMapAppend(a[1..], b, f);
    }
  }

  /** Regrouping a concatenation, stated once so that method proofs can name each step. */
  lemma AppendAssoc<T>(a: seq<T>, b: seq<T>, c: seq<T>)
    ensures a + (b + c) == (a + b) + c
  {
  }

  lemma FlatMapCons<T>(c: Call, t: seq<Call>, f: Call -> seq<T>)
    ensures FlatMap([c] + t, f) == f(c) + FlatMap(t, f)
  {
    assert ([c] + t)[1..] == t;
  }

  lemma FlatMapSingle<T>(c: Call, f: Call -> seq<T>)
    ensures FlatMap([c], f) == f(c)
  {
    assert [c][1..] == [];
  }

  lemma ReplaySingle(s: Settings, c: Call)
    ensures Replay(s, [c]) == Apply(s, c)
  {
    assert [c][1..] == [];
  }

  lemma {:induction false} ReplayAppend(s: Settings, a: seq<Call>, b: seq<Call>)
    ensures Replay(s, a + b) == Replay(Replay(s, a), b)
    decreases |a|
  {
    if a == [] {
      assert a + b == b;
    } else {
      assert (a + b)[1..] == a[1..] + b;
      ReplayAppend(Apply(s, a[0]), a[1..], b);
    }
  }

  /** A log none of whose calls writes a setting writes nothing. */
  lemma {:induction false} NoWrites(t: seq<Call>)
    requires forall c :: c in t ==> WriteOf(c) == []
    ensures Writes(t) == []
  {
    if t != [] {
      assert t[0] in t;
      assert forall c :: c in t[1..] ==> c in t;
      NoWrites(t[1..]);
    }
  }

  /** A log that writes no setting leaves every setting as it was. */
  lemma {:induction false} ReplayWithoutWrites(s: Settings, t: seq<Call>)
    requires Writes(t) == []
    ensures Replay(s, t) == s
  {
    if t != [] {
      assert t == [t[0]] + t[1..];
      FlatMapAppend([t[0]], t[1..], WriteOf);
      FlatMapSingle(t[0], WriteOf);
      ReplayWithoutWrites(s, t[1..]);
    }
  }

  /**
   * The machine the program runs on. Every method is one Win32 call: it logs
   * the call and applies its effect. A handle can be used or closed only while
   * it is open, so no handle is closed twice.
   */
  class System {
    var state: Settings
    var open: map<Handle, HandleKind>
    var running: set<Handle>
    var next: Handle
    var trace: seq<Call>
    /** The settings when the program started; the log replays from them. */
    ghost const initial: Settings

    ghost predicate Valid()
      reads this
    {
      && NULL < next
      && (forall h :: h in open ==> NULL < h < next)
      && (forall h :: h in running ==> NULL < h < next)
      && state == Replay(initial, trace)
    }

    constructor (s: Settings)
      ensures Valid()
      ensures state == s && open == map[] && running == {} && trace == []
    {
      state, open, running, next, trace := s, map[], {}, 1, [];
      initial := s;
    }

    /** Logs c and applies its effect on the settings. */
    method Log(c: Call)
      requires Valid()
      modifies this
      ensures Valid()
      ensures trace == old(trace) + [c] && state == Apply(old(state), c)
      ensures open == old(open) && running == old(running) && next == old(next)
    {
      ReplayAppend(initial, trace, [c]);
      assert [c][1..] == [];
      trace := trace + [c];
      state := Apply(state, c);
    }

    method ReportStatus(msg: Status)
      requires Valid()
      modifies this
      ensures Valid()
      ensures trace == old(trace) + [Call.ReportStatus(msg)] && state == old(state)
      ensures open == old(open) && running == old(running) && next == old(next)
    {
      Log(Call.ReportStatus(msg));
    }

    /** Installs flags and returns the previous execution state. */
    method SetThreadExecutionState(flags: ExecutionState) returns (previous: ExecutionState)
      requires Valid()
      modifies this
      ensures Valid()
      ensures previous == old(state).execState
      ensures trace == old(trace) + [Call.SetThreadExecutionState(flags)]
      ensures state == old(state).(execState := flags)
      ensures open == old(open) && running == old(running) && next == old(next)
    {
      previous := state.execState;
      Log(Call.SetThreadExecutionState(flags));
    }

    /**
     * SystemParametersInfo(SPI_GETSCREENSAVETIMEOUT): on success the out
     * variable receives the timeout, on failure it keeps its value.
     */
    method GetScreenSaveTimeout(ok: bool, into: uint32) returns (timeout: uint32)
      requires Valid()
      modifies this
      ensures Valid()
      ensures timeout == if ok then old(state).screenSaveTimeout else into
      ensures trace == old(trace) + [Call.GetScreenSaveTimeout(ok)] && state == old(state)
      ensures open == old(open) && running == old(running) && next == old(next)
    {
      timeout := if ok then state.screenSaveTimeout else into;
      Log(Call.GetScreenSaveTimeout(ok));
    }

    method SetScreenSaveTimeout(timeout: uint32)
      requires Valid()
      modifies this
      ensures Valid()
      ensures trace == old(trace) + [Call.SetScreenSaveTimeout(timeout)]
      ensures state == old(state).(screenSaveTimeout := timeout)
      ensures open == old(open) && running == old(running) && next == old(next)
    {
      Log(Call.SetScreenSaveTimeout(timeout));
    }

    /** PowerGetActiveScheme, PowerWriteACValueIndex(GUID_PROCESSOR_IDLE_DISABLE), PowerSetActiveScheme. */
    method WriteProcessorIdleDisable(value: uint32)
      requires Valid()
      modifies this
      ensures Valid()
      ensures trace == old(trace) + [Call.WriteProcessorIdleDisable(value)]
      ensures state == old(state).(idleDisable := value)
      ensures open == old(open) && running == old(running) && next == old(next)
    {
      Log(Call.WriteProcessorIdleDisable(value));
    }

    /** The fire-and-forget netsh command; its eventual effect is taken as immediate. */
    method NetshSetWifi(enabled: bool)
      requires Valid()
      modifies this
      ensures Valid()
      ensures trace == old(trace) + [Call.NetshSetWifi(enabled)]
      ensures state == old(state).(wifiEnabled := enabled)
      ensures open == old(open) && running == old(running) && next == old(next)
    {
      Log(Call.NetshSetWifi(enabled));
    }

    method PathFileExists(path: string, onDisk: bool) returns (found: bool)
      requires Valid()
      modifies this
      ensures Valid()
      ensures found == onDisk
      ensures trace == old(trace) + [Call.PathFileExists(path, onDisk)] && state == old(state)
      ensures open == old(open) && running == old(running) && next == old(next)
    {
      found := onDisk;
      Log(Call.PathFileExists(path, onDisk));
    }

    method ExpandEnvironmentStrings(path: string, expanded: string) returns (result: string)
      requires Valid()
      modifies this
      ensures Valid()
      ensures result == expanded
      ensures trace == old(trace) + [Call.ExpandEnvironmentStrings(path)] && state == old(state)
      ensures open == old(open) && running == old(running) && next == old(next)
    {
      result := expanded;
      Log(Call.ExpandEnvironmentStrings(path));
    }

    method GetShellWindow(ok: bool) returns (found: bool)
      requires Valid()
      modifies this
      ensures Valid()
      ensures found == ok
      ensures trace == old(trace) + [Call.GetShellWindow(ok)] && state == old(state)
      ensures open == old(open) && running == old(running) && next == old(next)
    {
      found := ok;
      Log(Call.GetShellWindow(ok));
    }

    method GetWindowThreadProcessId(ok: bool) returns (found: bool)
      requires Valid()
      modifies this
      ensures Valid()
      ensures found == ok
      ensures trace == old(trace) + [Call.GetWindowThreadProcessId(ok)] && state == old(state)
      ensures open == old(open) && running == old(running) && next == old(next)
    {
      found := ok;
      Log(Call.GetWindowThreadProcessId(ok));
    }

    /** Allocates a fresh handle of the given kind. */
    method Allocate(kind: HandleKind) returns (h: Handle)
      requires Valid()
      modifies this
      ensures Valid()
      ensures h == old(next) && next == old(next) + 1
      ensures open == old(open)[h := kind]
      ensures trace == old(trace) && state == old(state) && running == old(running)
    {
      h := next;
      open := open[h := kind];
      next := next + 1;
    }

    method OpenProcess(ok: bool) returns (process: Handle)
      requires Valid()
      modifies this
      ensures Valid()
      ensures trace == old(trace) + [Call.OpenProcess(ok)] && state == old(state)
      ensures ok ==> process == old(next) && open == old(open)[process := ShellProcess] && next == old(next) + 1
      ensures !ok ==> process == NULL && open == old(open) && next == old(next)
      ensures running == old(running)
    {
      process := NULL;
      if ok {
        process := Allocate(ShellProcess);
      }
      Log(Call.OpenProcess(ok));
    }

    method OpenProcessToken(process: Handle, ok: bool) returns (token: Handle)
      requires Valid()
      requires process in open && open[process] == ShellProcess
      modifies this
      ensures Valid()
      ensures trace == old(trace) + [Call.OpenProcessToken(ok)] && state == old(state)
      ensures ok ==> token == old(next) && open == old(open)[token := ShellToken] && next == old(next) + 1
      ensures !ok ==> token == NULL && open == old(open) && next == old(next)
      ensures running == old(running)
    {
      token := NULL;
      if ok {
        token := Allocate(ShellToken);
      }
      Log(Call.OpenProcessToken(ok));
    }

    method DuplicateTokenEx(token: Handle, ok: bool) returns (primary: Handle)
      requires Valid()
      requires token in open && open[token] == ShellToken
      modifies this
      ensures Valid()
      ensures trace == old(trace) + [Call.DuplicateTokenEx(ok)] && state == old(state)
      ensures ok ==> primary == old(next) && open == old(open)[primary := PrimaryToken] && next == old(next) + 1
      ensures !ok ==> primary == NULL && open == old(open) && next == old(next)
      ensures running == old(running)
    {
      primary := NULL;
      if ok {
        primary := Allocate(PrimaryToken);
      }
      Log(Call.DuplicateTokenEx(ok));
    }

    /** Starts a child process; on failure pi is left as it was given. */
    method StartChild(pi: ProcessInformation, ok: bool) returns (r: ProcessInformation)
      requires Valid()
      modifies this
      ensures Valid()
      ensures ok ==> r == ProcessInformation(old(next), old(next) + 1) && next == old(next) + 2
      ensures ok ==> open == old(open)[r.hProcess := ChildProcess][r.hThread := ChildThread]
      ensures ok ==> running == old(running) + {r.hProcess}
      ensures !ok ==> r == pi && open == old(open) && running == old(running) && next == old(next)
      ensures trace == old(trace) && state == old(state)
    {
      r := pi;
      if ok {
        var p := Allocate(ChildProcess);
        var t := Allocate(ChildThread);
        r := ProcessInformation(p, t);
        running := running + {p};
      }
    }

    /** CreateProcessWithTokenW: returns whether it succeeded and the PROCESS_INFORMATION. */
    method CreateProcessWithToken(token: Handle, cmdline: string, pi: ProcessInformation, ok: bool)
      returns (created: bool, r: ProcessInformation)
      requires Valid()
      requires token in open && open[token] == PrimaryToken
      modifies this
      ensures Valid()
      ensures created == ok
      ensures trace == old(trace) + [Call.CreateProcessWithToken(cmdline, ok)] && state == old(state)
      ensures ok ==> r == ProcessInformation(old(next), old(next) + 1) && next == old(next) + 2
      ensures ok ==> open == old(open)[r.hProcess := ChildProcess][r.hThread := ChildThread]
      ensures ok ==> running == old(running) + {r.hProcess}
      ensures !ok ==> r == pi && open == old(open) && running == old(running) && next == old(next)
    {
      created := ok;
      r := StartChild(pi, ok);
      Log(Call.CreateProcessWithToken(cmdline, ok));
    }

    /** CreateProcess under the caller's own token. */
    method CreateProcess(cmdline: string, pi: ProcessInformation, ok: bool)
      returns (created: bool, r: ProcessInformation)
      requires Valid()
      modifies this
      ensures Valid()
      ensures created == ok
      ensures trace == old(trace) + [Call.CreateProcess(cmdline, ok)] && state == old(state)
      ensures ok ==> r == ProcessInformation(old(next), old(next) + 1) && next == old(next) + 2
      ensures ok ==> open == old(open)[r.hProcess := ChildProcess][r.hThread := ChildThread]
      ensures ok ==> running == old(running) + {r.hProcess}
      ensures !ok ==> r == pi && open == old(open) && running == old(running) && next == old(next)
    {
      created := ok;
      r := StartChild(pi, ok);
      Log(Call.CreateProcess(cmdline, ok));
    }

    method CloseHandle(h: Handle)
      requires Valid()
      requires h in open
      modifies this
      ensures Valid()
      ensures trace == old(trace) + [Call.CloseHandle(old(open)[h])] && state == old(state)
      ensures open == old(open) - {h}
      ensures running == old(running) && next == old(next)
    {
      var kind := open[h];
      open := open - {h};
      Log(Call.CloseHandle(kind));
    }

    method Sleep(ms: nat)
      requires Valid()
      modifies this
      ensures Valid()
      ensures trace == old(trace) + [Call.Sleep(ms)] && state == old(state)
      ensures open == old(open) && running == old(running) && next == old(next)
    {
      Log(Call.Sleep(ms));
    }

    /** WaitForMultipleObjects(n, handles, TRUE, INFINITE): returns once every process has exited. */
    method WaitForAll(handles: seq<Handle>)
      requires Valid()
      requires 0 < |handles| <= MAXIMUM_WAIT_OBJECTS
      requires forall k :: 0 <= k < |handles| ==> handles[k] in open && open[handles[k]] == ChildProcess
      modifies this
      ensures Valid()
      ensures trace == old(trace) + [Call.WaitForAll(|handles|)] && state == old(state)
      ensures running == old(running) - set k | 0 <= k < |handles| :: handles[k]
      ensures open == old(open) && next == old(next)
    {
      running := running - set k | 0 <= k < |handles| :: handles[k];
      Log(Call.WaitForAll(|handles|));
    }
  }
}
