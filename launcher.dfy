/**
 * LaunchProgram: start a program with the desktop shell's token, so that it
 * does not inherit the launcher's elevation, or under the launcher's own
 * token.
 *
 * The shell-token route is a chain of fallible steps. A failure anywhere
 * before CreateProcessWithTokenW ends the launch with no process; only a
 * failure of CreateProcessWithTokenW itself falls back to CreateProcess.
 */
module Launcher {
  import opened Win32

  /** The fallible steps of a launch. */
  datatype Step =
    | ShellWindow        // GetShellWindow
    | ShellProcessId     // GetWindowThreadProcessId
    | OpenShellProcess   // OpenProcess
    | OpenShellToken     // OpenProcessToken
    | DuplicateToken     // DuplicateTokenEx
    | CreateWithToken    // CreateProcessWithTokenW
    | CreateDirect       // CreateProcess

  /** What the environment decides for one launch: the expanded command line and the steps that fail. */
  datatype LaunchOracle = LaunchOracle(expanded: string, failing: set<Step>)

  /** How a launch ends. */
  datatype Outcome = ViaShellToken | ViaFallback | Direct | Failed(at: Step)
  {
    predicate Launched() { !Failed? }
  }

  /** The shell-token route, in the order the steps run. */
  const ShellChain: seq<Step> := [ShellWindow, ShellProcessId, OpenShellProcess, OpenShellToken, DuplicateToken, CreateWithToken]

  /** The steps that obtain the primary token. */
  const TokenSteps: set<Step> := {ShellWindow, ShellProcessId, OpenShellProcess, OpenShellToken, DuplicateToken}

  /**
   * The steps attempted along `steps`: they run in order until one fails; a
   * failure of CreateProcessWithTokenW is followed by CreateProcess, any other
   * failure ends the attempt.
   */
  function Attempted(steps: seq<Step>, failing: set<Step>): seq<Step>
  {
    if steps == [] then []
    else if steps[0] !in failing then [steps[0]] + Attempted(steps[1..], failing)
    else if steps[0] == CreateWithToken then [CreateWithToken, CreateDirect]
    else [steps[0]]
  }

  /** The steps a launch attempts. */
  function Tried(useShellToken: bool, failing: set<Step>): seq<Step>
  {
    Attempted(if useShellToken then ShellChain else [CreateDirect], failing)
  }

  /** The decision LaunchProgram takes, as its branches take it. */
  function Decide(useShellToken: bool, failing: set<Step>): Outcome
  {
    if !useShellToken then
      if CreateDirect in failing then Failed(CreateDirect) else Direct
    else if ShellWindow in failing then Failed(ShellWindow)
    else if ShellProcessId in failing then Failed(ShellProcessId)
    else if OpenShellProcess in failing then Failed(OpenShellProcess)
    else if OpenShellToken in failing then Failed(OpenShellToken)
    else if DuplicateToken in failing then Failed(DuplicateToken)
    else if CreateWithToken !in failing then ViaShellToken
    else if CreateDirect in failing then Failed(CreateDirect)
    else ViaFallback
  }

  /** Whether a launch obtains the shell's token handle. */
  predicate ShellTokenOpened(useShellToken: bool, failing: set<Step>)
  {
    OpenShellToken in Tried(useShellToken, failing) && OpenShellToken !in failing
  }

  function StepOf(c: Call): seq<Step>
  {
    match c
    case GetShellWindow(_) => [ShellWindow]
    case GetWindowThreadProcessId(_) => [ShellProcessId]
    case OpenProcess(_) => [OpenShellProcess]
    case OpenProcessToken(_) => [OpenShellToken]
    case DuplicateTokenEx(_) => [DuplicateToken]
    case CreateProcessWithToken(_, _) => [CreateWithToken]
    case CreateProcess(_, _) => [CreateDirect]
    case _ => []
  }

  /** The fallible steps a log records, in order. */
  function Steps(t: seq<Call>): seq<Step>
  {
    FlatMap(t, StepOf)
  }

  // The log of one launch. Each function below is one block of LaunchProgram
  // and continues with the next block when its step succeeds.

  function LaunchCalls(cmdline: string, useShellToken: bool, o: LaunchOracle): seq<Call>
  {
    [ExpandEnvironmentStrings(cmdline)] + if useShellToken then ShellTokenCalls(o) else DirectCalls(o.expanded, o.failing)
  }

  function ShellTokenCalls(o: LaunchOracle): seq<Call>
  {
    var f := o.failing;
    AcquireCalls(f) +
    if !Acquires(f) then []
    else
      TokenCreateCalls(o.expanded, f) +
      if DuplicateToken !in f && CreateWithToken in f then DirectCalls(o.expanded, o.failing)
      else if DuplicateToken !in f then [CloseHandle(ChildThread)]
      else []
  }

  /** The log of duplicating the token and creating the process with it. */
  function TokenCreateCalls(cmdline: string, failing: set<Step>): seq<Call>
  {
    [DuplicateTokenEx(DuplicateToken !in failing)] +
    if DuplicateToken in failing then [ReportStatus(DuplicateTokenExFailed)]
    else [CreateProcessWithToken(cmdline, CreateWithToken !in failing), CloseHandle(PrimaryToken)]
  }

  /** Whether the first four steps of the shell-token route succeed. */
  predicate Acquires(failing: set<Step>)
  {
    ShellWindow !in failing && ShellProcessId !in failing && OpenShellProcess !in failing && OpenShellToken !in failing
  }

  /** The log of obtaining the shell's token: window, process id, process, token. */
  function AcquireCalls(failing: set<Step>): seq<Call>
  {
    [GetShellWindow(ShellWindow !in failing)] +
    if ShellWindow in failing then [ReportStatus(GetShellWindowFailed)]
    else
      [GetWindowThreadProcessId(ShellProcessId !in failing)] +
      if ShellProcessId in failing then [ReportStatus(GetWindowThreadProcessIdFailed)]
      else
        [OpenProcess(OpenShellProcess !in failing)] +
        if OpenShellProcess in failing then [ReportStatus(OpenProcessFailed)]
        else
          TokenCalls(failing)
  }

  /** The log of opening the shell process's token and closing the process handle. */
  function TokenCalls(failing: set<Step>): seq<Call>
  {
    [OpenProcessToken(OpenShellToken !in failing)] +
    (if OpenShellToken in failing then [ReportStatus(OpenProcessTokenFailed)] else []) +
    [CloseHandle(ShellProcess)]
  }

  function DirectCalls(cmdline: string, failing: set<Step>): seq<Call>
  {
    [CreateProcess(cmdline, CreateDirect !in failing)] +
    if CreateDirect in failing then [ReportStatus(CreateProcessFailed)] else [CloseHandle(ChildThread)]
  }
  /**
   * Runs LaunchProgram(cmdline, useShellToken) against sys. Returns the new
   * process's handle, or NULL; shellToken is the shell token handle the
   * launch leaves open, or NULL.
   */
  method LaunchProgram(sys: System, cmdline: string, useShellToken: bool, o: LaunchOracle)
    returns (process: Handle, ghost shellToken: Handle)
    requires sys.Valid()
    modifies sys
    ensures sys.Valid()
    ensures sys.trace == old(sys.trace) + LaunchCalls(cmdline, useShellToken, o)
    ensures sys.state == old(sys.state)
    ensures (process != NULL) == Decide(useShellToken, o.failing).Launched()
    ensures (shellToken != NULL) == ShellTokenOpened(useShellToken, o.failing)
    ensures process != NULL ==> old(sys.next) <= process && sys.running == old(sys.running) + {process}
    ensures process == NULL ==> sys.running == old(sys.running)
    ensures shellToken != NULL ==> old(sys.next) <= shellToken && shellToken != process
    ensures sys.open == WithLeftover(old(sys.open), shellToken, process)
    ensures old(sys.next) <= sys.next
  {
    ShellTokenOpenedIff(useShellToken, o.failing);
    LaunchedIff(useShellToken, o.failing);
    var tmp := sys.ExpandEnvironmentStrings(cmdline, o.expanded);
    if useShellToken {
      process, shellToken := LaunchWithShellToken(sys, tmp, o);
      AppendAssoc(old(sys.trace), [ExpandEnvironmentStrings(cmdline)], ShellTokenCalls(o));
    } else {
      shellToken := NULL;
      process := FinishLaunch(sys, tmp, ZeroedProcessInformation, true, o.failing);
      AppendAssoc(old(sys.trace), [ExpandEnvironmentStrings(cmdline)], DirectCalls(o.expanded, o.failing));
    }
  }

  /**
   * LaunchProgram when the shell token is used: the shell-token block, then
   * the common tail, which falls back to CreateProcess when the block left no
   * process.
   */
  method LaunchWithShellToken(sys: System, cmdline: string, o: LaunchOracle)
    returns (process: Handle, ghost shellToken: Handle)
    requires sys.Valid() && cmdline == o.expanded
    modifies sys
    ensures sys.Valid()
    ensures sys.trace == old(sys.trace) + ShellTokenCalls(o)
    ensures sys.state == old(sys.state)
    ensures (process != NULL) == (Acquires(o.failing) && DuplicateToken !in o.failing &&
      (CreateWithToken !in o.failing || CreateDirect !in o.failing))
    ensures (shellToken != NULL) == Acquires(o.failing)
    ensures process != NULL ==> old(sys.next) <= process && sys.running == old(sys.running) + {process}
    ensures process == NULL ==> sys.running == old(sys.running)
    ensures shellToken != NULL ==> old(sys.next) <= shellToken && shellToken != process
    ensures sys.open == WithLeftover(old(sys.open), shellToken, process)
    ensures old(sys.next) <= sys.next
  {
    var f := o.failing;
    var ok, pi;
    ok, pi, shellToken := ShellTokenBlock(sys, cmdline, f);
    if !ok {
      return NULL, shellToken;
    }
    assert shellToken in sys.open;
    process := FinishLaunch(sys, cmdline, pi, pi.hProcess == NULL, f);
    AppendAssoc(old(sys.trace), AcquireCalls(f) + TokenCreateCalls(cmdline, f),
      if CreateWithToken in f then DirectCalls(cmdline, f) else [CloseHandle(ChildThread)]);
    AppendAssoc(old(sys.trace), AcquireCalls(f), TokenCreateCalls(cmdline, f));
    AppendAssoc(AcquireCalls(f), TokenCreateCalls(cmdline, f),
      if CreateWithToken in f then DirectCalls(cmdline, f) else [CloseHandle(ChildThread)]);
  }

  /**
   * LaunchProgram's shell-token block: obtains the shell's token, then
   * duplicates it and tries CreateProcessWithTokenW. ok is false when the
   * launch must end with no process; otherwise pi is the created process, or
   * still zeroed when CreateProcessWithTokenW failed.
   */
  method ShellTokenBlock(sys: System, cmdline: string, failing: set<Step>)
    returns (ok: bool, pi: ProcessInformation, ghost shellToken: Handle)
    requires sys.Valid()
    modifies sys
    ensures sys.Valid()
    ensures sys.trace == old(sys.trace) + AcquireCalls(failing) + if Acquires(failing) then TokenCreateCalls(cmdline, failing) else []
    ensures sys.state == old(sys.state) && old(sys.next) <= sys.next
    ensures ok == (Acquires(failing) && DuplicateToken !in failing)
    ensures (shellToken != NULL) == Acquires(failing)
    ensures shellToken != NULL ==> old(sys.next) <= shellToken
    ensures ok ==> ((pi.hProcess != NULL) == (CreateWithToken !in failing))
    ensures ok && pi.hProcess != NULL ==> shellToken < pi.hProcess < pi.hThread
    ensures ok && pi.hProcess != NULL ==>
      sys.open == WithLeftover(old(sys.open), shellToken, NULL)[pi.hProcess := ChildProcess][pi.hThread := ChildThread]
    ensures !(ok && pi.hProcess != NULL) ==> sys.open == WithLeftover(old(sys.open), shellToken, NULL)
    ensures sys.running == if ok && pi.hProcess != NULL then old(sys.running) + {pi.hProcess} else old(sys.running)
  {
    pi := ZeroedProcessInformation;
    var hShellToken := AcquireShellToken(sys, failing);
    shellToken := hShellToken;
    if hShellToken == NULL {
      return false, pi, shellToken;
    }
    ok, pi := CreateWithShellToken(sys, hShellToken, cmdline, failing);
  }

  /**
   * The common tail of a launch: runs CreateProcess when createDirect is set
   * (reporting and returning NULL when it fails), then closes the thread handle
   * and returns the process handle.
   */
  method FinishLaunch(sys: System, cmdline: string, pi: ProcessInformation, createDirect: bool, failing: set<Step>)
    returns (process: Handle)
    requires sys.Valid()
    requires !createDirect ==> pi.hProcess != NULL && pi.hProcess != pi.hThread
    requires !createDirect ==> pi.hProcess in sys.open && sys.open[pi.hProcess] == ChildProcess && pi.hProcess in sys.running
    requires !createDirect ==> pi.hThread in sys.open && sys.open[pi.hThread] == ChildThread
    modifies sys
    ensures sys.Valid()
    ensures sys.trace == old(sys.trace) + if createDirect then DirectCalls(cmdline, failing) else [CloseHandle(ChildThread)]
    ensures sys.state == old(sys.state) && old(sys.next) <= sys.next
    ensures (process != NULL) == (!createDirect || CreateDirect !in failing)
    ensures !createDirect ==> process == pi.hProcess && sys.open == old(sys.open) - {pi.hThread} && sys.running == old(sys.running)
    ensures createDirect && process != NULL ==> old(sys.next) <= process && sys.open == old(sys.open)[process := ChildProcess]
    ensures createDirect && process != NULL ==> sys.running == old(sys.running) + {process}
    ensures createDirect && process == NULL ==> sys.open == old(sys.open) && sys.running == old(sys.running)
  {
    var pi := pi;
    if createDirect {
      var created, pi' := sys.CreateProcess(cmdline, pi, CreateDirect !in failing);
      pi := pi';
      if !created {
        sys.ReportStatus(CreateProcessFailed);
        return NULL;
      }
    }
    sys.CloseHandle(pi.hThread);
    process := pi.hProcess;
  }

  /**
   * The second block of the shell-token route: duplicates the shell's token
   * into a primary token, tries CreateProcessWithTokenW with it and closes it.
   * Returns false, after reporting, when the duplication fails; otherwise the
   * PROCESS_INFORMATION, still zeroed when the create failed.
   */
  method CreateWithShellToken(sys: System, hShellToken: Handle, cmdline: string, failing: set<Step>)
    returns (duplicated: bool, pi: ProcessInformation)
    requires sys.Valid()
    requires hShellToken in sys.open && sys.open[hShellToken] == ShellToken
    modifies sys
    ensures sys.Valid()
    ensures sys.trace == old(sys.trace) + TokenCreateCalls(cmdline, failing)
    ensures sys.state == old(sys.state) && old(sys.next) <= sys.next
    ensures duplicated == (DuplicateToken !in failing)
    ensures (pi.hProcess != NULL) == (duplicated && CreateWithToken !in failing)
    ensures pi.hProcess == NULL ==> sys.open == old(sys.open) && sys.running == old(sys.running)
    ensures pi.hProcess != NULL ==> old(sys.next) <= pi.hProcess < pi.hThread
    ensures pi.hProcess != NULL ==> sys.open == old(sys.open)[pi.hProcess := ChildProcess][pi.hThread := ChildThread]
    ensures pi.hProcess != NULL ==> sys.running == old(sys.running) + {pi.hProcess}
  {
    pi := ZeroedProcessInformation;
    var hToken := sys.DuplicateTokenEx(hShellToken, DuplicateToken !in failing);
    if hToken == NULL {
      sys.ReportStatus(DuplicateTokenExFailed);
      return false, pi;
    }
    duplicated := true;
    var _, pi' := sys.CreateProcessWithToken(hToken, cmdline, pi, CreateWithToken !in failing);
    pi := pi';
    sys.CloseHandle(hToken);
  }

  /**
   * The first block of the shell-token route: finds the shell window and its
   * process, opens the process and its token, and closes the process handle.
   * Returns the token handle, or NULL after reporting the failing step.
   */
  method AcquireShellToken(sys: System, failing: set<Step>) returns (hShellToken: Handle)
    requires sys.Valid()
    modifies sys
    ensures sys.Valid()
    ensures sys.trace == old(sys.trace) + AcquireCalls(failing)
    ensures sys.state == old(sys.state) && sys.running == old(sys.running) && old(sys.next) <= sys.next
    ensures (hShellToken != NULL) == Acquires(failing)
    ensures hShellToken != NULL ==> old(sys.next) <= hShellToken && sys.open == old(sys.open)[hShellToken := ShellToken]
    ensures hShellToken == NULL ==> sys.open == old(sys.open)
  {
    var hShellWnd := sys.GetShellWindow(ShellWindow !in failing);
    if !hShellWnd {
      sys.ReportStatus(GetShellWindowFailed);
      return NULL;
    }
    var shellProcessId := sys.GetWindowThreadProcessId(ShellProcessId !in failing);
    if !shellProcessId {
      sys.ReportStatus(GetWindowThreadProcessIdFailed);
      return NULL;
    }
    var hShellProcess := sys.OpenProcess(OpenShellProcess !in failing);
    if hShellProcess == NULL {
      sys.ReportStatus(OpenProcessFailed);
      return NULL;
    }
    hShellToken := TokenOfShellProcess(sys, hShellProcess, failing);
  }

  /**
   * The last part of the first block: opens the shell process's token, closes
   * the process handle whatever happens, and returns the token or NULL after
   * reporting.
   */
  method TokenOfShellProcess(sys: System, hShellProcess: Handle, failing: set<Step>) returns (hShellToken: Handle)
    requires sys.Valid()
    requires hShellProcess in sys.open && sys.open[hShellProcess] == ShellProcess
    modifies sys
    ensures sys.Valid()
    ensures sys.trace == old(sys.trace) + TokenCalls(failing)
    ensures sys.state == old(sys.state) && sys.running == old(sys.running) && old(sys.next) <= sys.next
    ensures (hShellToken != NULL) == (OpenShellToken !in failing)
    ensures hShellToken != NULL ==> old(sys.next) <= hShellToken && sys.open == old(sys.open)[hShellToken := ShellToken] - {hShellProcess}
    ensures hShellToken == NULL ==> sys.open == old(sys.open) - {hShellProcess}
  {
    hShellToken := sys.OpenProcessToken(hShellProcess, OpenShellToken !in failing);
    if hShellToken == NULL {
      sys.ReportStatus(OpenProcessTokenFailed);
      sys.CloseHandle(hShellProcess);
      return NULL;
    }
    sys.CloseHandle(hShellProcess);
  }

  /** Attempted, one step at a time along the shell-token route. */
  lemma AttemptedShellChain(failing: set<Step>)
    ensures Attempted(ShellChain, failing) ==
      if ShellWindow in failing then [ShellWindow]
      else [ShellWindow] + Attempted(ShellChain[1..], failing)
    ensures Attempted(ShellChain[1..], failing) ==
      if ShellProcessId in failing then [ShellProcessId]
      else [ShellProcessId] + Attempted(ShellChain[2..], failing)
    ensures Attempted(ShellChain[2..], failing) ==
      if OpenShellProcess in failing then [OpenShellProcess]
      else [OpenShellProcess] + Attempted(ShellChain[3..], failing)
    ensures Attempted(ShellChain[3..], failing) ==
      if OpenShellToken in failing then [OpenShellToken]
      else [OpenShellToken] + Attempted(ShellChain[4..], failing)
    ensures Attempted(ShellChain[4..], failing) ==
      if DuplicateToken in failing then [DuplicateToken]
      else [DuplicateToken] + Attempted(ShellChain[5..], failing)
    ensures Attempted(ShellChain[5..], failing) ==
      if CreateWithToken in failing then [CreateWithToken, CreateDirect] else [CreateWithToken]
  {
    assert ShellChain[1..][1..] == ShellChain[2..];
    assert ShellChain[2..][1..] == ShellChain[3..];
    assert ShellChain[3..][1..] == ShellChain[4..];
    assert ShellChain[4..][1..] == ShellChain[5..];
    assert ShellChain[5..][1..] == [];
  }

  /** The shell token is obtained exactly when the first four steps of the shell-token route succeed. */
  lemma ShellTokenOpenedIff(useShellToken: bool, failing: set<Step>)
    ensures ShellTokenOpened(useShellToken, failing) <==>
      useShellToken && ShellWindow !in failing && ShellProcessId !in failing
      && OpenShellProcess !in failing && OpenShellToken !in failing
  {
    if useShellToken {
      TriedShellChain(failing);
    } else {
      DirectRoute(failing);
    }
  }

  /** A launch starts a process exactly when its route reaches a create call that succeeds. */
  lemma LaunchedIff(useShellToken: bool, failing: set<Step>)
    ensures Decide(useShellToken, failing).Launched() <==>
      if useShellToken then
        Acquires(failing) && DuplicateToken !in failing && (CreateWithToken !in failing || CreateDirect !in failing)
      else CreateDirect !in failing
  {
  }

  /**
   * A launch attempts at least one step, and fails exactly when the last step
   * it attempts fails, at that step; it ends in the fallback exactly when the
   * shell-token route reached CreateProcess and CreateProcess succeeded.
   */
  lemma DecideAgreesWithTried(useShellToken: bool, failing: set<Step>)
    ensures |Tried(useShellToken, failing)| > 0
    ensures var t := Tried(useShellToken, failing);
      Decide(useShellToken, failing).Failed? <==> t[|t| - 1] in failing
    ensures var t := Tried(useShellToken, failing);
      Decide(useShellToken, failing).Failed? ==> Decide(useShellToken, failing).at == t[|t| - 1]
    ensures Decide(useShellToken, failing) == ViaFallback <==>
      useShellToken && CreateDirect in Tried(useShellToken, failing) && CreateDirect !in failing
  {
    if useShellToken {
      TriedShellChain(failing);
    } else {
      DirectRoute(failing);
    }
  }

  /**
   * CreateProcess is attempted exactly when the shell-token route is not used,
   * or when every step before CreateProcessWithTokenW succeeded and
   * CreateProcessWithTokenW failed.
   */
  lemma FallbackIff(useShellToken: bool, failing: set<Step>)
    ensures CreateDirect in Tried(useShellToken, failing) <==>
      !useShellToken || (TokenSteps !! failing && CreateWithToken in failing)
  {
    if useShellToken {
      TriedShellChain(failing);
    } else {
      DirectRoute(failing);
    }
  }

  /** A failure before CreateProcessWithTokenW is final: no fallback, no process, no create call. */
  lemma EarlyFailureIsFinal(failing: set<Step>)
    requires !(TokenSteps !! failing)
    ensures Decide(true, failing).Failed? && Decide(true, failing).at in TokenSteps
    ensures CreateDirect !in Tried(true, failing) && CreateWithToken !in Tried(true, failing)
  {
    TriedShellChain(failing);
  }

  /** Without the shell token a launch makes exactly one attempt, with CreateProcess. */
  lemma DirectRoute(failing: set<Step>)
    ensures Tried(false, failing) == [CreateDirect]
    ensures Decide(false, failing).Launched() <==> CreateDirect !in failing
    ensures !ShellTokenOpened(false, failing)
  {
    assert [CreateDirect][1..] == [];
    assert Attempted([], failing) == [];
  }

  // FlatMap over each block of the launch log, for any per-call view f.

  lemma DirectCallsMap<T>(cmdline: string, failing: set<Step>, f: Call -> seq<T>)
    ensures FlatMap(DirectCalls(cmdline, failing), f) == f(CreateProcess(cmdline, CreateDirect !in failing)) +
      if CreateDirect in failing then f(ReportStatus(CreateProcessFailed)) else f(CloseHandle(ChildThread))
  {
    var rest := if CreateDirect in failing then [ReportStatus(CreateProcessFailed)] else [CloseHandle(ChildThread)];
    FlatMapCons(CreateProcess(cmdline, CreateDirect !in failing), rest, f);
    FlatMapSingle(rest[0], f);
  }

  lemma TokenCreateCallsMap<T>(cmdline: string, failing: set<Step>, f: Call -> seq<T>)
    ensures FlatMap(TokenCreateCalls(cmdline, failing), f) == f(DuplicateTokenEx(DuplicateToken !in failing)) +
      if DuplicateToken in failing then f(ReportStatus(DuplicateTokenExFailed))
      else f(CreateProcessWithToken(cmdline, CreateWithToken !in failing)) + f(CloseHandle(PrimaryToken))
  {
    var d := DuplicateTokenEx(DuplicateToken !in failing);
    if DuplicateToken in failing {
      FlatMapCons(d, [ReportStatus(DuplicateTokenExFailed)], f);
      FlatMapSingle(ReportStatus(DuplicateTokenExFailed), f);
    } else {
      var c := CreateProcessWithToken(cmdline, CreateWithToken !in failing);
      assert TokenCreateCalls(cmdline, failing) == [d] + ([c] + [CloseHandle(PrimaryToken)]);
      FlatMapCons(d, [c] + [CloseHandle(PrimaryToken)], f);
      FlatMapCons(c, [CloseHandle(PrimaryToken)], f);
      FlatMapSingle(CloseHandle(PrimaryToken), f);
    }
  }

  lemma TokenCallsMap<T>(failing: set<Step>, f: Call -> seq<T>)
    ensures FlatMap(TokenCalls(failing), f) == f(OpenProcessToken(OpenShellToken !in failing)) +
      (if OpenShellToken in failing then f(ReportStatus(OpenProcessTokenFailed)) else []) +
      f(CloseHandle(ShellProcess))
  {
    var k := OpenProcessToken(OpenShellToken !in failing);
    FlatMapSingle(CloseHandle(ShellProcess), f);
    if OpenShellToken in failing {
      assert TokenCalls(failing) == [k] + ([ReportStatus(OpenProcessTokenFailed)] + [CloseHandle(ShellProcess)]);
      FlatMapCons(k, [ReportStatus(OpenProcessTokenFailed)] + [CloseHandle(ShellProcess)], f);
      FlatMapCons(ReportStatus(OpenProcessTokenFailed), [CloseHandle(ShellProcess)], f);
    } else {
      assert TokenCalls(failing) == [k] + [CloseHandle(ShellProcess)];
      FlatMapCons(k, [CloseHandle(ShellProcess)], f);
    }
  }

  lemma AcquireCallsMap<T>(failing: set<Step>, f: Call -> seq<T>)
    ensures FlatMap(AcquireCalls(failing), f) == f(GetShellWindow(ShellWindow !in failing)) +
      if ShellWindow in failing then f(ReportStatus(GetShellWindowFailed))
      else
        f(GetWindowThreadProcessId(ShellProcessId !in failing)) +
        if ShellProcessId in failing then f(ReportStatus(GetWindowThreadProcessIdFailed))
        else
          f(OpenProcess(OpenShellProcess !in failing)) +
          if OpenShellProcess in failing then f(ReportStatus(OpenProcessFailed))
          else FlatMap(TokenCalls(failing), f)
  {
    var w := GetShellWindow(ShellWindow !in failing);
    var i := GetWindowThreadProcessId(ShellProcessId !in failing);
    var p := OpenProcess(OpenShellProcess !in failing);
    if ShellWindow in failing {
      FlatMapCons(w, [ReportStatus(GetShellWindowFailed)], f);
      FlatMapSingle(ReportStatus(GetShellWindowFailed), f);
    } else if ShellProcessId in failing {
      assert AcquireCalls(failing) == [w] + ([i] + [ReportStatus(GetWindowThreadProcessIdFailed)]);
      FlatMapCons(w, [i] + [ReportStatus(GetWindowThreadProcessIdFailed)], f);
      FlatMapCons(i, [ReportStatus(GetWindowThreadProcessIdFailed)], f);
      FlatMapSingle(ReportStatus(GetWindowThreadProcessIdFailed), f);
    } else if OpenShellProcess in failing {
      assert AcquireCalls(failing) == [w] + ([i] + ([p] + [ReportStatus(OpenProcessFailed)]));
      FlatMapCons(w, [i] + ([p] + [ReportStatus(OpenProcessFailed)]), f);
      FlatMapCons(i, [p] + [ReportStatus(OpenProcessFailed)], f);
      FlatMapCons(p, [ReportStatus(OpenProcessFailed)], f);
      FlatMapSingle(ReportStatus(OpenProcessFailed), f);
    } else {
      assert AcquireCalls(failing) == [w] + ([i] + ([p] + TokenCalls(failing)));
      FlatMapCons(w, [i] + ([p] + TokenCalls(failing)), f);
      FlatMapCons(i, [p] + TokenCalls(failing), f);
      FlatMapCons(p, TokenCalls(failing), f);
    }
  }

  lemma ShellTokenCallsMap<T>(o: LaunchOracle, f: Call -> seq<T>)
    ensures var g := o.failing;
      FlatMap(ShellTokenCalls(o), f) == FlatMap(AcquireCalls(g), f) +
      if !Acquires(g) then []
      else
        FlatMap(TokenCreateCalls(o.expanded, g), f) +
        if DuplicateToken !in g && CreateWithToken in g then FlatMap(DirectCalls(o.expanded, g), f)
        else if DuplicateToken !in g then f(CloseHandle(ChildThread))
        else []
  {
    var g := o.failing;
    var rest :=
      if DuplicateToken !in g && CreateWithToken in g then DirectCalls(o.expanded, g)
      else if DuplicateToken !in g then [CloseHandle(ChildThread)]
      else [];
    FlatMapAppend(AcquireCalls(g), if !Acquires(g) then [] else TokenCreateCalls(o.expanded, g) + rest, f);
    FlatMapAppend(TokenCreateCalls(o.expanded, g), rest, f);
    FlatMapSingle(CloseHandle(ChildThread), f);
  }

  lemma LaunchCallsMap<T>(cmdline: string, useShellToken: bool, o: LaunchOracle, f: Call -> seq<T>)
    ensures FlatMap(LaunchCalls(cmdline, useShellToken, o), f) == f(ExpandEnvironmentStrings(cmdline)) +
      if useShellToken then FlatMap(ShellTokenCalls(o), f) else FlatMap(DirectCalls(o.expanded, o.failing), f)
  {
    FlatMapCons(ExpandEnvironmentStrings(cmdline), if useShellToken then ShellTokenCalls(o) else DirectCalls(o.expanded, o.failing), f);
  }

  // The views of each block in closed form, one lemma per view.

  /** A block that writes no setting and expands no command line. */
  predicate Quiet(t: seq<Call>)
  {
    Writes(t) == [] && Expansions(t) == []
  }

  lemma DirectQuiet(cmdline: string, failing: set<Step>)
    ensures Quiet(DirectCalls(cmdline, failing))
  {
    DirectCallsMap(cmdline, failing, WriteOf);
    DirectCallsMap(cmdline, failing, ExpandOf);
  }

  lemma DirectSteps(cmdline: string, failing: set<Step>)
    ensures Steps(DirectCalls(cmdline, failing)) == [CreateDirect]
  {
    DirectCallsMap(cmdline, failing, StepOf);
  }

  lemma DirectHandles(cmdline: string, failing: set<Step>)
    ensures Opens(DirectCalls(cmdline, failing)) == if CreateDirect in failing then [] else [ChildProcess, ChildThread]
    ensures Closes(DirectCalls(cmdline, failing)) == if CreateDirect in failing then [] else [ChildThread]
  {
    DirectCallsMap(cmdline, failing, OpenOf);
    DirectCallsMap(cmdline, failing, CloseOf);
  }

  lemma TokenCreateQuiet(cmdline: string, failing: set<Step>)
    ensures Quiet(TokenCreateCalls(cmdline, failing))
  {
    TokenCreateCallsMap(cmdline, failing, WriteOf);
    TokenCreateCallsMap(cmdline, failing, ExpandOf);
  }

  lemma TokenCreateSteps(cmdline: string, failing: set<Step>)
    ensures Steps(TokenCreateCalls(cmdline, failing)) ==
      if DuplicateToken in failing then [DuplicateToken] else [DuplicateToken, CreateWithToken]
  {
    TokenCreateCallsMap(cmdline, failing, StepOf);
  }

  lemma TokenCreateHandles(cmdline: string, failing: set<Step>)
    ensures Opens(TokenCreateCalls(cmdline, failing)) ==
      if DuplicateToken in failing then []
      else if CreateWithToken in failing then [PrimaryToken]
      else [PrimaryToken, ChildProcess, ChildThread]
    ensures Closes(TokenCreateCalls(cmdline, failing)) == if DuplicateToken in failing then [] else [PrimaryToken]
  {
    TokenCreateCallsMap(cmdline, failing, OpenOf);
    TokenCreateCallsMap(cmdline, failing, CloseOf);
  }

  lemma TokenQuiet(failing: set<Step>)
    ensures Quiet(TokenCalls(failing))
  {
    TokenCallsMap(failing, WriteOf);
    TokenCallsMap(failing, ExpandOf);
  }

  lemma TokenHandles(failing: set<Step>)
    ensures Opens(TokenCalls(failing)) == if OpenShellToken in failing then [] else [ShellToken]
    ensures Closes(TokenCalls(failing)) == [ShellProcess]
  {
    TokenCallsMap(failing, OpenOf);
    TokenCallsMap(failing, CloseOf);
  }

  predicate ShellProcessOpened(failing: set<Step>)
  {
    ShellWindow !in failing && ShellProcessId !in failing && OpenShellProcess !in failing
  }

  lemma AcquireQuiet(failing: set<Step>)
    ensures Quiet(AcquireCalls(failing))
  {
    TokenQuiet(failing);
    AcquireCallsMap(failing, WriteOf);
    AcquireCallsMap(failing, ExpandOf);
  }

  lemma AcquireSteps(failing: set<Step>)
    ensures Steps(AcquireCalls(failing)) ==
      if ShellWindow in failing then [ShellWindow]
      else if ShellProcessId in failing then [ShellWindow, ShellProcessId]
      else if OpenShellProcess in failing then [ShellWindow, ShellProcessId, OpenShellProcess]
      else [ShellWindow, ShellProcessId, OpenShellProcess, OpenShellToken]
  {
    TokenCallsMap(failing, StepOf);
    AcquireCallsMap(failing, StepOf);
  }

  lemma AcquireHandles(failing: set<Step>)
    ensures Opens(AcquireCalls(failing)) ==
      if !ShellProcessOpened(failing) then []
      else if OpenShellToken in failing then [ShellProcess]
      else [ShellProcess, ShellToken]
    ensures Closes(AcquireCalls(failing)) == if !ShellProcessOpened(failing) then [] else [ShellProcess]
  {
    AcquireOpens(failing);
    AcquireCloses(failing);
  }

  lemma AcquireOpens(failing: set<Step>)
    ensures Opens(AcquireCalls(failing)) ==
      if !ShellProcessOpened(failing) then []
      else if OpenShellToken in failing then [ShellProcess]
      else [ShellProcess, ShellToken]
  {
    AcquireCallsMap(failing, OpenOf);
    if ShellProcessOpened(failing) {
      TokenHandles(failing);
    }
  }

  lemma AcquireCloses(failing: set<Step>)
    ensures Closes(AcquireCalls(failing)) == if !ShellProcessOpened(failing) then [] else [ShellProcess]
  {
    AcquireCallsMap(failing, CloseOf);
    if ShellProcessOpened(failing) {
      TokenHandles(failing);
    }
  }

  lemma ShellTokenQuiet(o: LaunchOracle)
    ensures Quiet(ShellTokenCalls(o))
  {
    var g := o.failing;
    AcquireQuiet(g);
    TokenCreateQuiet(o.expanded, g);
    DirectQuiet(o.expanded, g);
    ShellTokenCallsMap(o, WriteOf);
    ShellTokenCallsMap(o, ExpandOf);
  }

  lemma ShellTokenSteps(o: LaunchOracle)
    ensures var g := o.failing;
      Steps(ShellTokenCalls(o)) == Steps(AcquireCalls(g)) +
      if !Acquires(g) then []
      else Steps(TokenCreateCalls(o.expanded, g)) + if DuplicateToken !in g && CreateWithToken in g then [CreateDirect] else []
  {
    DirectSteps(o.expanded, o.failing);
    ShellTokenCallsMap(o, StepOf);
  }

  lemma ShellTokenOpens(o: LaunchOracle)
    ensures var g := o.failing;
      Opens(ShellTokenCalls(o)) == Opens(AcquireCalls(g)) +
      if !Acquires(g) then []
      else Opens(TokenCreateCalls(o.expanded, g)) + if DuplicateToken !in g && CreateWithToken in g then Opens(DirectCalls(o.expanded, g)) else []
  {
    ShellTokenCallsMap(o, OpenOf);
  }

  lemma ShellTokenCloses(o: LaunchOracle)
    ensures var g := o.failing;
      Closes(ShellTokenCalls(o)) == Closes(AcquireCalls(g)) +
      if !Acquires(g) then []
      else
        Closes(TokenCreateCalls(o.expanded, g)) +
        if DuplicateToken !in g && CreateWithToken in g then Closes(DirectCalls(o.expanded, g))
        else if DuplicateToken !in g then [ChildThread]
        else []
  {
    ShellTokenCallsMap(o, CloseOf);
  }

  /** The steps of the shell-token route, in closed form. */
  lemma TriedShellChain(failing: set<Step>)
    ensures Tried(true, failing) ==
      if ShellWindow in failing then [ShellWindow]
      else if ShellProcessId in failing then [ShellWindow, ShellProcessId]
      else if OpenShellProcess in failing then [ShellWindow, ShellProcessId, OpenShellProcess]
      else
        [ShellWindow, ShellProcessId, OpenShellProcess, OpenShellToken] +
        if OpenShellToken in failing then []
        else if DuplicateToken in failing then [DuplicateToken]
        else if CreateWithToken in failing then [DuplicateToken, CreateWithToken, CreateDirect]
        else [DuplicateToken, CreateWithToken]
  {
    AttemptedShellChain(failing);
  }

  /** The fallible calls a launch logs are the steps Tried names, in order. */
  lemma StepsOfLaunch(cmdline: string, useShellToken: bool, o: LaunchOracle)
    ensures Steps(LaunchCalls(cmdline, useShellToken, o)) == Tried(useShellToken, o.failing)
  {
    LaunchCallsMap(cmdline, useShellToken, o, StepOf);
    if !useShellToken {
      DirectSteps(o.expanded, o.failing);
      DirectRoute(o.failing);
    } else {
      ShellTokenStepsOfLaunch(o);
    }
  }

  /** StepsOfLaunch for the shell-token route. */
  lemma ShellTokenStepsOfLaunch(o: LaunchOracle)
    ensures Steps(ShellTokenCalls(o)) == Tried(true, o.failing)
  {
    var g := o.failing;
    TriedShellChain(g);
    AcquireSteps(g);
    ShellTokenSteps(o);
    if Acquires(g) {
      var acquired := [ShellWindow, ShellProcessId, OpenShellProcess, OpenShellToken];
      assert Steps(AcquireCalls(g)) == acquired;
      TokenCreateSteps(o.expanded, g);
      if DuplicateToken in g {
        assert Steps(ShellTokenCalls(o)) == acquired + [DuplicateToken];
      } else if CreateWithToken in g {
        assert Steps(ShellTokenCalls(o)) == acquired + ([DuplicateToken, CreateWithToken] + [CreateDirect]);
      } else {
        assert Steps(ShellTokenCalls(o)) == acquired + ([DuplicateToken, CreateWithToken] + []);
      }
    }
  }

  /** A launch expands exactly its own command line, once. */
  lemma LaunchExpandsOnce(cmdline: string, useShellToken: bool, o: LaunchOracle)
    ensures Expansions(LaunchCalls(cmdline, useShellToken, o)) == [cmdline]
  {
    LaunchCallsMap(cmdline, useShellToken, o, ExpandOf);
    if useShellToken {
      ShellTokenQuiet(o);
    } else {
      DirectQuiet(o.expanded, o.failing);
    }
  }

  /** The command lines the process-creating steps among steps run, in order. */
  function Runs(cmdline: string, steps: seq<Step>): seq<string>
  {
    if steps == [] then []
    else (if steps[0] in {CreateWithToken, CreateDirect} then [cmdline] else []) + Runs(cmdline, steps[1..])
  }

  /** Every process-creating call of t runs cmdline. */
  predicate RunsOnly(t: seq<Call>, cmdline: string)
  {
    forall c | c in t && (c.CreateProcessWithToken? || c.CreateProcess?) :: c.cmdline == cmdline
  }

  lemma {:induction false} RunsAppend(cmdline: string, a: seq<Step>, b: seq<Step>)
    ensures Runs(cmdline, a + b) == Runs(cmdline, a) + Runs(cmdline, b)
  {
    if a == [] {
      assert a + b == b;
    } else {
      assert (a + b)[1..] == a[1..] + b;
      RunsAppend(cmdline, a[1..], b);
    }
  }

  /** In a log whose creates all run cmdline, there is one create per create step. */
  lemma {:induction false} CreatesFollowSteps(t: seq<Call>, cmdline: string)
    requires RunsOnly(t, cmdline)
    ensures Creates(t) == Runs(cmdline, Steps(t))
  {
    if t != [] {
      assert forall c | c in t[1..] :: c in t;
      CreatesFollowSteps(t[1..], cmdline);
      RunsAppend(cmdline, StepOf(t[0]), Steps(t[1..]));
      CreateOfStep(t[0], cmdline);
    }
  }

  lemma CreateOfStep(c: Call, cmdline: string)
    requires (c.CreateProcessWithToken? || c.CreateProcess?) ==> c.cmdline == cmdline
    ensures CreateOf(c) == Runs(cmdline, StepOf(c))
  {
    if c.CreateProcessWithToken? || c.CreateProcess? {
      assert StepOf(c)[1..] == [];
    }
  }

  /**
   * Both CreateProcessWithTokenW and CreateProcess run the expanded command
   * line, and a launch makes one create call per create step it tries.
   */
  lemma LaunchRunsExpanded(cmdline: string, useShellToken: bool, o: LaunchOracle)
    ensures RunsOnly(LaunchCalls(cmdline, useShellToken, o), o.expanded)
    ensures Creates(LaunchCalls(cmdline, useShellToken, o)) == Runs(o.expanded, Tried(useShellToken, o.failing))
  {
    var t := LaunchCalls(cmdline, useShellToken, o);
    if useShellToken {
      ShellTokenRunsExpanded(o);
    }
    assert RunsOnly(t, o.expanded);
    CreatesFollowSteps(t, o.expanded);
    StepsOfLaunch(cmdline, useShellToken, o);
  }

  /** LaunchRunsExpanded's first half for the shell-token route. */
  lemma ShellTokenRunsExpanded(o: LaunchOracle)
    ensures RunsOnly(ShellTokenCalls(o), o.expanded)
  {
    AcquireRunsNothing(o.failing, o.expanded);
  }

  /** Obtaining the shell's token creates no process. */
  lemma AcquireRunsNothing(failing: set<Step>, cmdline: string)
    ensures RunsOnly(AcquireCalls(failing), cmdline)
  {
    assert RunsOnly(TokenCalls(failing), cmdline);
  }

  /** A launch writes no setting. */
  lemma LaunchWritesNothing(cmdline: string, useShellToken: bool, o: LaunchOracle)
    ensures Writes(LaunchCalls(cmdline, useShellToken, o)) == []
  {
    LaunchCallsMap(cmdline, useShellToken, o, WriteOf);
    if useShellToken {
      ShellTokenQuiet(o);
    } else {
      DirectQuiet(o.expanded, o.failing);
    }
  }

  /**
   * The kinds of the handles one launch opens, in order: the shell process,
   * the shell token and the primary token as far as the shell-token route
   * gets, then the child's process and thread when the launch succeeds.
   */
  lemma OpensOfLaunch(cmdline: string, useShellToken: bool, o: LaunchOracle)
    ensures Opens(LaunchCalls(cmdline, useShellToken, o)) == ChainOpens(useShellToken, o.failing) +
      if Decide(useShellToken, o.failing).Launched() then [ChildProcess, ChildThread] else []
  {
    LaunchCallsMap(cmdline, useShellToken, o, OpenOf);
    if useShellToken {
      ShellTokenOpensOfLaunch(o);
    } else {
      DirectHandles(o.expanded, o.failing);
    }
  }

  /** OpensOfLaunch for the shell-token route, one branch of LaunchProgram at a time. */
  lemma ShellTokenOpensOfLaunch(o: LaunchOracle)
    ensures Opens(ShellTokenCalls(o)) ==
      (if !ShellProcessOpened(o.failing) then []
       else if OpenShellToken in o.failing then [ShellProcess]
       else if DuplicateToken in o.failing then [ShellProcess, ShellToken]
       else [ShellProcess, ShellToken, PrimaryToken]) +
      if Decide(true, o.failing).Launched() then [ChildProcess, ChildThread] else []
  {
    var g := o.failing;
    AcquireOpens(g);
    ShellTokenOpens(o);
    if Acquires(g) {
      TokenCreateHandles(o.expanded, g);
      if DuplicateToken !in g && CreateWithToken in g {
        DirectHandles(o.expanded, g);
      }
    }
  }

  /**
   * The kinds of the handles one launch closes, in order: the shell process
   * whenever it was opened, the primary token whenever it was duplicated, and
   * the child's thread when the launch succeeds. The shell token and the
   * child's process are never closed here.
   */
  lemma ClosesOfLaunch(cmdline: string, useShellToken: bool, o: LaunchOracle)
    ensures Closes(LaunchCalls(cmdline, useShellToken, o)) == ChainCloses(useShellToken, o.failing) +
      if Decide(useShellToken, o.failing).Launched() then [ChildThread] else []
  {
    LaunchCallsMap(cmdline, useShellToken, o, CloseOf);
    if useShellToken {
      ShellTokenClosesOfLaunch(o);
    } else {
      DirectHandles(o.expanded, o.failing);
    }
  }

  /** ClosesOfLaunch for the shell-token route, one branch of LaunchProgram at a time. */
  lemma ShellTokenClosesOfLaunch(o: LaunchOracle)
    ensures Closes(ShellTokenCalls(o)) ==
      (if !ShellProcessOpened(o.failing) then []
       else if OpenShellToken in o.failing || DuplicateToken in o.failing then [ShellProcess]
       else [ShellProcess, PrimaryToken]) +
      if Decide(true, o.failing).Launched() then [ChildThread] else []
  {
    var g := o.failing;
    AcquireCloses(g);
    ShellTokenCloses(o);
    if Acquires(g) {
      TokenCreateHandles(o.expanded, g);
      if DuplicateToken !in g && CreateWithToken in g {
        DirectHandles(o.expanded, g);
      }
    }
  }

  /**
   * Every handle one launch opens is closed by it exactly once, except the
   * shell token, opened once when the first four steps succeed, and the child
   * process returned to the caller; neither of those is closed here.
   */
  lemma LaunchLeaves(cmdline: string, useShellToken: bool, o: LaunchOracle, k: HandleKind)
    ensures var l := LaunchCalls(cmdline, useShellToken, o);
      multiset(Opens(l))[k] == multiset(Closes(l))[k] +
        (if k == ShellToken && ShellTokenOpened(useShellToken, o.failing) then 1 else 0) +
        (if k == ChildProcess && Decide(useShellToken, o.failing).Launched() then 1 else 0)
    ensures k == ShellToken || k == ChildProcess ==> multiset(Closes(LaunchCalls(cmdline, useShellToken, o)))[k] == 0
  {
    var g := o.failing;
    OpensOfLaunch(cmdline, useShellToken, o);
    ClosesOfLaunch(cmdline, useShellToken, o);
    ShellTokenOpenedIff(useShellToken, g);
    var launched := Decide(useShellToken, g).Launched();
    var chainOpened := ChainOpens(useShellToken, g);
    var chainClosed := ChainCloses(useShellToken, g);
    var child: seq<HandleKind> := if launched then [ChildProcess, ChildThread] else [];
    var closedChild: seq<HandleKind> := if launched then [ChildThread] else [];
    assert multiset(chainOpened + child)[k] == multiset(chainOpened)[k] + multiset(child)[k];
    assert multiset(chainClosed + closedChild)[k] == multiset(chainClosed)[k] + multiset(closedChild)[k];
    ChainLeaves(useShellToken, g, k);
  }

  /** The handles the shell-token route opens before any child process, in order. */
  function ChainOpens(useShellToken: bool, g: set<Step>): seq<HandleKind>
  {
    if !useShellToken || !ShellProcessOpened(g) then []
    else if OpenShellToken in g then [ShellProcess]
    else if DuplicateToken in g then [ShellProcess, ShellToken]
    else [ShellProcess, ShellToken, PrimaryToken]
  }

  /** The handles the shell-token route closes before any child thread, in order. */
  function ChainCloses(useShellToken: bool, g: set<Step>): seq<HandleKind>
  {
    if !useShellToken || !ShellProcessOpened(g) then []
    else if OpenShellToken in g || DuplicateToken in g then [ShellProcess]
    else [ShellProcess, PrimaryToken]
  }

  /** Of the handles the shell-token route opens, it closes all but the shell token, which it never closes. */
  lemma ChainLeaves(useShellToken: bool, g: set<Step>, k: HandleKind)
    ensures multiset(ChainOpens(useShellToken, g))[k] ==
      multiset(ChainCloses(useShellToken, g))[k] + if k == ShellToken && ShellTokenOpened(useShellToken, g) then 1 else 0
    ensures multiset(ChainCloses(useShellToken, g))[ShellToken] == 0
    ensures multiset(ChainCloses(useShellToken, g))[ChildProcess] == 0
  {
    ShellTokenOpenedIff(useShellToken, g);
  }

  /** The open handles after a launch that leaves shellToken and process open (either may be NULL). */
  function WithLeftover(before: map<Handle, HandleKind>, shellToken: Handle, process: Handle): map<Handle, HandleKind>
  {
    var m := if shellToken != NULL then before[shellToken := ShellToken] else before;
    if process != NULL then m[process := ChildProcess] else m
  }
}
