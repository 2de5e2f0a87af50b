/**
 * The settings transaction of OptForAudio's main: change four system
 * settings, launch the programs, wait for them to exit, and restore the
 * settings in reverse order, each step gated by its feature flag.
 */
module OptForAudio {
  import opened Win32
  import opened Launcher

  /** The five global feature flags. */
  datatype Config = Config(
    displayRequired: bool,
    disableScreensaver: bool,
    disableCpuThrottle: bool,
    disableWifi: bool,
    runUtilApps: bool)

  /** The flags as the program ships them. */
  const DefaultConfig := Config(true, true, true, true, false)

  const PpmPanel: string := @"C:\Program Files\RightMark\ppmpanel\ppmpanel.exe"
  const LatencyMon: string := @"C:\Program Files\LatencyMon\LatMon.exe"
  const AmpliTube: string := @"C:\Program Files\IK Multimedia\AmpliTube 5\AmpliTube 5.exe"

  /** The EXECUTION_STATE requested while the programs run. */
  const AudioExecutionState: ExecutionState := ES_DISPLAY_REQUIRED | ES_SYSTEM_REQUIRED | ES_CONTINUOUS

  /** The programs to launch, in order: the utilities when enabled, then AmpliTube. */
  function Programs(runUtilApps: bool): (r: seq<string>)
    ensures |r| == if runUtilApps then 3 else 1
    ensures r[|r| - 1] == AmpliTube
    ensures runUtilApps ==> r[..2] == [PpmPanel, LatencyMon]
  {
    (if runUtilApps then [PpmPanel, LatencyMon] else []) + [AmpliTube]
  }

  /** What the machine decides for one program: whether the path exists and how its launch goes. */
  datatype ProgramEnv = ProgramEnv(onDisk: bool, launch: LaunchOracle)

  /** What the machine decides for one run. */
  datatype Env = Env(timeoutReadable: bool, programs: seq<ProgramEnv>)

  /** The values main keeps in locals to restore later. */
  datatype Saved = Saved(execState: ExecutionState, screenSaveTimeout: uint32)

  /** A program that exists and whose launch returns a process. */
  predicate Starts(e: ProgramEnv)
  {
    e.onDisk && Decide(true, e.launch.failing).Launched()
  }

  /** A program whose launch opens the shell's token (and so leaves it open). */
  predicate Leaks(e: ProgramEnv)
  {
    e.onDisk && ShellTokenOpened(true, e.launch.failing)
  }

  /** The indices of the programs that start, in order. */
  function StartedIndices(es: seq<ProgramEnv>): (r: seq<nat>)
    ensures |r| <= |es|
    ensures forall k :: 0 <= k < |r| ==> r[k] < |es| && Starts(es[r[k]])
    ensures forall j, k :: 0 <= j < k < |r| ==> r[j] < r[k]
    ensures forall i :: 0 <= i < |es| && Starts(es[i]) ==> i in r
    decreases |es|
  {
    if es == [] then []
    else StartedIndices(es[..|es| - 1]) + if Starts(es[|es| - 1]) then [|es| - 1] else []
  }

  /** How many launches open the shell's token. */
  function CountLeaks(es: seq<ProgramEnv>): nat
    decreases |es|
  {
    if es == [] then 0
    else CountLeaks(es[..|es| - 1]) + if Leaks(es[|es| - 1]) then 1 else 0
  }

  /** The paths of the programs that exist, in order. */
  function Existing(ps: seq<string>, es: seq<ProgramEnv>): seq<string>
    requires |ps| == |es|
    decreases |ps|
  {
    if ps == [] then []
    else Existing(ps[..|ps| - 1], es[..|es| - 1]) + if es[|es| - 1].onDisk then [ps[|ps| - 1]] else []
  }

  /** The values main captures: the previous execution state and screensaver timeout, or 0. */
  function Captured(cfg: Config, timeoutReadable: bool, s0: Settings): Saved
  {
    Saved(
      if cfg.displayRequired then s0.execState else 0,
      if cfg.disableScreensaver && timeoutReadable then s0.screenSaveTimeout else 0)
  }

  // The log of main, block by block.

  /** main's optimise block: report, then display, screensaver, CPU idle and Wi-Fi, each under its flag. */
  function ApplyCalls(cfg: Config, timeoutReadable: bool): seq<Call>
  {
    [ReportStatus(Optimizing)] +
    (if cfg.displayRequired then [SetThreadExecutionState(AudioExecutionState)] else []) +
    (if cfg.disableScreensaver then [GetScreenSaveTimeout(timeoutReadable), SetScreenSaveTimeout(0)] else []) +
    (if cfg.disableCpuThrottle then [WriteProcessorIdleDisable(1)] else []) +
    (if cfg.disableWifi then [NetshSetWifi(false)] else [])
  }

  /** One iteration of the launch loop. */
  function ProgramCalls(path: string, e: ProgramEnv): seq<Call>
  {
    [PathFileExists(path, e.onDisk)] +
    if !e.onDisk then [ReportStatus(ProgramNotFound(path))]
    else LaunchCalls(path, true, e.launch) + if Starts(e) then [] else [ReportStatus(FailedToLaunch(path))]
  }

  /** The launch loop over the programs. */
  function LaunchPhase(ps: seq<string>, es: seq<ProgramEnv>): seq<Call>
    requires |ps| == |es|
    decreases |ps|
  {
    if ps == [] then []
    else LaunchPhase(ps[..|ps| - 1], es[..|es| - 1]) + ProgramCalls(ps[|ps| - 1], es[|es| - 1])
  }

  /** Closing n process handles. */
  function CloseCalls(n: nat): seq<Call>
  {
    if n == 0 then [] else CloseCalls(n - 1) + [CloseHandle(ChildProcess)]
  }

  /** main's wait block: with n processes, sleep, report, wait for all, close every handle. */
  function JoinCalls(n: nat): seq<Call>
  {
    if n == 0 then [] else [Sleep(1000), ReportStatus(WaitingForExit), WaitForAll(n)] + CloseCalls(n)
  }

  /** main's restore block: restore the settings, then report and pause. */
  function RestoreCalls(cfg: Config, saved: Saved): seq<Call>
  {
    RevertCalls(cfg, saved) + [ReportStatus(Completed), Sleep(5000)]
  }

  /** The settings part of main's restore block: report, then Wi-Fi, CPU idle, screensaver and display, each under its flag. */
  function RevertCalls(cfg: Config, saved: Saved): seq<Call>
  {
    [ReportStatus(Restoring)] +
    (if cfg.disableWifi then [NetshSetWifi(true)] else []) +
    (if cfg.disableCpuThrottle then [WriteProcessorIdleDisable(0)] else []) +
    (if cfg.disableScreensaver then [SetScreenSaveTimeout(saved.screenSaveTimeout)] else []) +
    (if cfg.displayRequired then [SetThreadExecutionState(saved.execState)] else [])
  }

  /** The log of a whole run of main, started on settings s0. */
  function RunCalls(cfg: Config, env: Env, s0: Settings): seq<Call>
    requires |env.programs| == |Programs(cfg.runUtilApps)|
  {
    ApplyCalls(cfg, env.timeoutReadable) +
    [ReportStatus(StartingPrograms)] +
    LaunchPhase(Programs(cfg.runUtilApps), env.programs) +
    JoinCalls(|StartedIndices(env.programs)|) +
    RestoreCalls(cfg, Captured(cfg, env.timeoutReadable, s0))
  }

  /** The settings while the programs run. */
  function Applied(cfg: Config, s0: Settings): Settings
  {
    Settings(
      if cfg.displayRequired then AudioExecutionState else s0.execState,
      if cfg.disableScreensaver then 0 else s0.screenSaveTimeout,
      if cfg.disableCpuThrottle then 1 else s0.idleDisable,
      if cfg.disableWifi then false else s0.wifiEnabled)
  }

  /**
   * The settings after a run: the execution state and screensaver timeout as
   * they were (the timeout becomes 0 when it could not be read), the processor
   * idle-disable index 0 and Wi-Fi on when their flags are set.
   */
  function AfterRun(cfg: Config, timeoutReadable: bool, s0: Settings): Settings
  {
    Settings(
      s0.execState,
      if cfg.disableScreensaver && !timeoutReadable then 0 else s0.screenSaveTimeout,
      if cfg.disableCpuThrottle then 0 else s0.idleDisable,
      cfg.disableWifi || s0.wifiEnabled)
  }

  /** The settings written along a log prefix of the form (if b then [c] else []). */
  function Gate(b: bool, s: Setting): seq<Setting>
  {
    if b then [s] else []
  }

  function Reversed<T>(s: seq<T>): seq<T>
    decreases |s|
  {
    if s == [] then [] else Reversed(s[1..]) + [s[0]]
  }

  lemma {:induction false} ReversedAppend<T>(a: seq<T>, b: seq<T>)
    ensures Reversed(a + b) == Reversed(b) + Reversed(a)
    decreases |a|
  {
    if a == [] {
      assert a + b == b;
    } else {
      assert (a + b)[1..] == a[1..] + b;
      ReversedAppend(a[1..], b);
    }
  }

  // FlatMap and Replay over the gated blocks of main.

  lemma FlatMapGate<T>(b: bool, c: Call, f: Call -> seq<T>)
    ensures FlatMap(if b then [c] else [], f) == if b then f(c) else []
  {
    if b {
      FlatMapSingle(c, f);
    }
  }

  lemma ReplayGate(s: Settings, b: bool, c: Call)
    ensures Replay(s, if b then [c] else []) == if b then Apply(s, c) else s
  {
    if b {
      ReplaySingle(s, c);
    }
  }

  lemma ApplyCallsMap<T>(cfg: Config, timeoutReadable: bool, f: Call -> seq<T>)
    ensures FlatMap(ApplyCalls(cfg, timeoutReadable), f) ==
      f(ReportStatus(Optimizing)) +
      (if cfg.displayRequired then f(SetThreadExecutionState(AudioExecutionState)) else []) +
      (if cfg.disableScreensaver then f(GetScreenSaveTimeout(timeoutReadable)) + f(SetScreenSaveTimeout(0)) else []) +
      (if cfg.disableCpuThrottle then f(WriteProcessorIdleDisable(1)) else []) +
      (if cfg.disableWifi then f(NetshSetWifi(false)) else [])
  {
    var a := [ReportStatus(Optimizing)];
    var b := if cfg.displayRequired then [SetThreadExecutionState(AudioExecutionState)] else [];
    var c := if cfg.disableScreensaver then [GetScreenSaveTimeout(timeoutReadable), SetScreenSaveTimeout(0)] else [];
    var d := if cfg.disableCpuThrottle then [WriteProcessorIdleDisable(1)] else [];
    var e := if cfg.disableWifi then [NetshSetWifi(false)] else [];
    FlatMapAppend(a + b + c + d, e, f);
    FlatMapAppend(a + b + c, d, f);
    FlatMapAppend(a + b, c, f);
    FlatMapAppend(a, b, f);
    FlatMapSingle(ReportStatus(Optimizing), f);
    FlatMapGate(cfg.displayRequired, SetThreadExecutionState(AudioExecutionState), f);
    FlatMapGate(cfg.disableCpuThrottle, WriteProcessorIdleDisable(1), f);
    FlatMapGate(cfg.disableWifi, NetshSetWifi(false), f);
    if cfg.disableScreensaver {
      assert c == [GetScreenSaveTimeout(timeoutReadable)] + [SetScreenSaveTimeout(0)];
      FlatMapCons(GetScreenSaveTimeout(timeoutReadable), [SetScreenSaveTimeout(0)], f);
      FlatMapSingle(SetScreenSaveTimeout(0), f);
    }
  }

  lemma RevertCallsMap<T>(cfg: Config, saved: Saved, f: Call -> seq<T>)
    ensures FlatMap(RevertCalls(cfg, saved), f) ==
      f(ReportStatus(Restoring)) +
      (if cfg.disableWifi then f(NetshSetWifi(true)) else []) +
      (if cfg.disableCpuThrottle then f(WriteProcessorIdleDisable(0)) else []) +
      (if cfg.disableScreensaver then f(SetScreenSaveTimeout(saved.screenSaveTimeout)) else []) +
      (if cfg.displayRequired then f(SetThreadExecutionState(saved.execState)) else [])
  {
    var a := [ReportStatus(Restoring)];
    var b := if cfg.disableWifi then [NetshSetWifi(true)] else [];
    var c := if cfg.disableCpuThrottle then [WriteProcessorIdleDisable(0)] else [];
    var d := if cfg.disableScreensaver then [SetScreenSaveTimeout(saved.screenSaveTimeout)] else [];
    var e := if cfg.displayRequired then [SetThreadExecutionState(saved.execState)] else [];
    FlatMapAppend(a + b + c + d, e, f);
    FlatMapAppend(a + b + c, d, f);
    FlatMapAppend(a + b, c, f);
    FlatMapAppend(a, b, f);
    FlatMapSingle(ReportStatus(Restoring), f);
    FlatMapGate(cfg.disableWifi, NetshSetWifi(true), f);
    FlatMapGate(cfg.disableCpuThrottle, WriteProcessorIdleDisable(0), f);
    FlatMapGate(cfg.disableScreensaver, SetScreenSaveTimeout(saved.screenSaveTimeout), f);
    FlatMapGate(cfg.displayRequired, SetThreadExecutionState(saved.execState), f);
  }

  lemma RestoreCallsMap<T>(cfg: Config, saved: Saved, f: Call -> seq<T>)
    ensures FlatMap(RestoreCalls(cfg, saved), f) ==
      FlatMap(RevertCalls(cfg, saved), f) + f(ReportStatus(Completed)) + f(Sleep(5000))
  {
    FlatMapAppend(RevertCalls(cfg, saved), [ReportStatus(Completed), Sleep(5000)], f);
    assert [ReportStatus(Completed), Sleep(5000)] == [ReportStatus(Completed)] + [Sleep(5000)];
    FlatMapCons(ReportStatus(Completed), [Sleep(5000)], f);
    FlatMapSingle(Sleep(5000), f);
  }

  /** Apply writes display, screensaver, CPU idle and Wi-Fi, in that order, each exactly when its flag is set. */
  lemma ApplyWrites(cfg: Config, timeoutReadable: bool)
    ensures Writes(ApplyCalls(cfg, timeoutReadable)) ==
      Gate(cfg.displayRequired, ExecutionStateFlags) + Gate(cfg.disableScreensaver, ScreenSaveTimeout) +
      Gate(cfg.disableCpuThrottle, ProcessorIdleDisable) + Gate(cfg.disableWifi, WifiInterface)
  {
    ApplyCallsMap(cfg, timeoutReadable, WriteOf);
  }

  /** Restore writes Wi-Fi, CPU idle, screensaver and display, in that order, each exactly when its flag is set. */
  lemma RestoreWrites(cfg: Config, saved: Saved)
    ensures Writes(RestoreCalls(cfg, saved)) ==
      Gate(cfg.disableWifi, WifiInterface) + Gate(cfg.disableCpuThrottle, ProcessorIdleDisable) +
      Gate(cfg.disableScreensaver, ScreenSaveTimeout) + Gate(cfg.displayRequired, ExecutionStateFlags)
  {
    RestoreCallsMap(cfg, saved, WriteOf);
    RevertCallsMap(cfg, saved, WriteOf);
  }

  /**
   * With the flags as shipped, all four settings are changed and put back in
   * the reverse order, and AmpliTube is the only program launched.
   */
  lemma DefaultConfigWritesAll(timeoutReadable: bool, saved: Saved)
    ensures Writes(ApplyCalls(DefaultConfig, timeoutReadable)) ==
      [ExecutionStateFlags, ScreenSaveTimeout, ProcessorIdleDisable, WifiInterface]
    ensures Writes(RestoreCalls(DefaultConfig, saved)) ==
      [WifiInterface, ProcessorIdleDisable, ScreenSaveTimeout, ExecutionStateFlags]
    ensures Programs(DefaultConfig.runUtilApps) == [AmpliTube]
  {
    ApplyWrites(DefaultConfig, timeoutReadable);
    RestoreWrites(DefaultConfig, saved);
  }

  /** The settings restore writes are those apply writes, in exactly the reverse order. */
  lemma RestoreReversesApply(cfg: Config, timeoutReadable: bool, saved: Saved)
    ensures Writes(RestoreCalls(cfg, saved)) == Reversed(Writes(ApplyCalls(cfg, timeoutReadable)))
  {
    ApplyWrites(cfg, timeoutReadable);
    RestoreWrites(cfg, saved);
    var a := Gate(cfg.displayRequired, ExecutionStateFlags);
    var b := Gate(cfg.disableScreensaver, ScreenSaveTimeout);
    var c := Gate(cfg.disableCpuThrottle, ProcessorIdleDisable);
    var d := Gate(cfg.disableWifi, WifiInterface);
    ReversedOfFour(a, b, c, d);
    GateReversed(cfg.displayRequired, ExecutionStateFlags);
    GateReversed(cfg.disableScreensaver, ScreenSaveTimeout);
    GateReversed(cfg.disableCpuThrottle, ProcessorIdleDisable);
    GateReversed(cfg.disableWifi, WifiInterface);
  }

  lemma ReversedOfFour<T>(a: seq<T>, b: seq<T>, c: seq<T>, d: seq<T>)
    ensures Reversed(a + b + c + d) == Reversed(d) + Reversed(c) + Reversed(b) + Reversed(a)
  {
    ReversedAppend(a + b + c, d);
    ReversedAppend(a + b, c);
    ReversedAppend(a, b);
  }

  lemma GateReversed(b: bool, s: Setting)
    ensures Reversed(Gate(b, s)) == Gate(b, s)
  {
    if b {
      assert [s][1..] == [];
    }
  }

  /** While the programs run, each flagged setting holds the value apply wrote; the others are as they were. */
  lemma ReplayApply(cfg: Config, timeoutReadable: bool, s0: Settings)
    ensures Replay(s0, ApplyCalls(cfg, timeoutReadable)) == Applied(cfg, s0)
  {
    var a := [ReportStatus(Optimizing)];
    var b := if cfg.displayRequired then [SetThreadExecutionState(AudioExecutionState)] else [];
    var c := if cfg.disableScreensaver then [GetScreenSaveTimeout(timeoutReadable), SetScreenSaveTimeout(0)] else [];
    var d := if cfg.disableCpuThrottle then [WriteProcessorIdleDisable(1)] else [];
    var e := if cfg.disableWifi then [NetshSetWifi(false)] else [];
    ReplayAppend(s0, a + b + c + d, e);
    ReplayAppend(s0, a + b + c, d);
    ReplayAppend(s0, a + b, c);
    ReplayAppend(s0, a, b);
    ReplaySingle(s0, ReportStatus(Optimizing));
    var s1 := Replay(s0, a);
    ReplayGate(s1, cfg.displayRequired, SetThreadExecutionState(AudioExecutionState));
    var s2 := Replay(s1, b);
    if cfg.disableScreensaver {
      assert c == [GetScreenSaveTimeout(timeoutReadable)] + [SetScreenSaveTimeout(0)];
      ReplayAppend(s2, [GetScreenSaveTimeout(timeoutReadable)], [SetScreenSaveTimeout(0)]);
      ReplaySingle(s2, GetScreenSaveTimeout(timeoutReadable));
      ReplaySingle(s2, SetScreenSaveTimeout(0));
    }
    var s3 := Replay(s2, c);
    ReplayGate(s3, cfg.disableCpuThrottle, WriteProcessorIdleDisable(1));
    ReplayGate(Replay(s3, d), cfg.disableWifi, NetshSetWifi(false));
  }

  /** The settings after restore: Wi-Fi on, idle-disable 0, the saved timeout and execution state, each when flagged. */
  function Reverted(cfg: Config, saved: Saved, s: Settings): Settings
  {
    Settings(
      if cfg.displayRequired then saved.execState else s.execState,
      if cfg.disableScreensaver then saved.screenSaveTimeout else s.screenSaveTimeout,
      if cfg.disableCpuThrottle then 0 else s.idleDisable,
      if cfg.disableWifi then true else s.wifiEnabled)
  }

  lemma ReplayRestore(cfg: Config, saved: Saved, s: Settings)
    ensures Replay(s, RestoreCalls(cfg, saved)) == Reverted(cfg, saved, s)
  {
    var z := [ReportStatus(Completed), Sleep(5000)];
    ReplayAppend(s, RevertCalls(cfg, saved), z);
    ReplayRevert(cfg, saved, s);
    var s5 := Replay(s, RevertCalls(cfg, saved));
    assert z == [ReportStatus(Completed)] + [Sleep(5000)];
    ReplayAppend(s5, [ReportStatus(Completed)], [Sleep(5000)]);
    ReplaySingle(s5, ReportStatus(Completed));
    ReplaySingle(s5, Sleep(5000));
  }

  lemma ReplayRevert(cfg: Config, saved: Saved, s: Settings)
    ensures Replay(s, RevertCalls(cfg, saved)) == Reverted(cfg, saved, s)
  {
    var a := [ReportStatus(Restoring)];
    var b := if cfg.disableWifi then [NetshSetWifi(true)] else [];
    var c := if cfg.disableCpuThrottle then [WriteProcessorIdleDisable(0)] else [];
    var d := if cfg.disableScreensaver then [SetScreenSaveTimeout(saved.screenSaveTimeout)] else [];
    var e := if cfg.displayRequired then [SetThreadExecutionState(saved.execState)] else [];
    ReplayAppend(s, a + b + c + d, e);
    ReplayAppend(s, a + b + c, d);
    ReplayAppend(s, a + b, c);
    ReplayAppend(s, a, b);
    ReplaySingle(s, ReportStatus(Restoring));
    ReplayGate(s, cfg.disableWifi, NetshSetWifi(true));
    var s2 := Replay(s, a + b);
    ReplayGate(s2, cfg.disableCpuThrottle, WriteProcessorIdleDisable(0));
    var s3 := Replay(s2, c);
    ReplayGate(s3, cfg.disableScreensaver, SetScreenSaveTimeout(saved.screenSaveTimeout));
    ReplayGate(Replay(s3, d), cfg.displayRequired, SetThreadExecutionState(saved.execState));
  }

  lemma ProgramCallsMap<T>(path: string, e: ProgramEnv, f: Call -> seq<T>)
    ensures FlatMap(ProgramCalls(path, e), f) ==
      f(PathFileExists(path, e.onDisk)) +
      if !e.onDisk then f(ReportStatus(ProgramNotFound(path)))
      else FlatMap(LaunchCalls(path, true, e.launch), f) + if Starts(e) then [] else f(ReportStatus(FailedToLaunch(path)))
  {
    var l := LaunchCalls(path, true, e.launch);
    var rest :=
      if !e.onDisk then [ReportStatus(ProgramNotFound(path))]
      else l + if Starts(e) then [] else [ReportStatus(FailedToLaunch(path))];
    FlatMapCons(PathFileExists(path, e.onDisk), rest, f);
    if !e.onDisk {
      FlatMapSingle(ReportStatus(ProgramNotFound(path)), f);
    } else {
      FlatMapAppend(l, if Starts(e) then [] else [ReportStatus(FailedToLaunch(path))], f);
      FlatMapGate(!Starts(e), ReportStatus(FailedToLaunch(path)), f);
    }
  }

  /** One iteration of the launch loop writes no setting and launches its program exactly when the path exists. */
  lemma ProgramCallsFacts(path: string, e: ProgramEnv)
    ensures Writes(ProgramCalls(path, e)) == []
    ensures Expansions(ProgramCalls(path, e)) == if e.onDisk then [path] else []
  {
    ProgramCallsMap(path, e, WriteOf);
    ProgramCallsMap(path, e, ExpandOf);
    LaunchWritesNothing(path, true, e.launch);
    LaunchExpandsOnce(path, true, e.launch);
  }

  /** The launch loop writes no setting, and calls LaunchProgram for exactly the paths that exist, in order. */
  lemma {:induction false} LaunchPhaseFacts(ps: seq<string>, es: seq<ProgramEnv>)
    requires |ps| == |es|
    ensures Writes(LaunchPhase(ps, es)) == []
    ensures Expansions(LaunchPhase(ps, es)) == Existing(ps, es)
    decreases |ps|
  {
    if ps != [] {
      var n := |ps| - 1;
      LaunchPhaseFacts(ps[..n], es[..n]);
      ProgramCallsFacts(ps[n], es[n]);
      FlatMapAppend(LaunchPhase(ps[..n], es[..n]), ProgramCalls(ps[n], es[n]), WriteOf);
      FlatMapAppend(LaunchPhase(ps[..n], es[..n]), ProgramCalls(ps[n], es[n]), ExpandOf);
    }
  }

  lemma {:induction false} CloseCallsFacts(n: nat)
    ensures Writes(CloseCalls(n)) == [] && Opens(CloseCalls(n)) == []
    ensures Closes(CloseCalls(n)) == seq(n, _ => ChildProcess)
  {
    if n > 0 {
      CloseCallsFacts(n - 1);
      FlatMapAppend(CloseCalls(n - 1), [CloseHandle(ChildProcess)], WriteOf);
      FlatMapAppend(CloseCalls(n - 1), [CloseHandle(ChildProcess)], OpenOf);
      FlatMapAppend(CloseCalls(n - 1), [CloseHandle(ChildProcess)], CloseOf);
      FlatMapSingle(CloseHandle(ChildProcess), WriteOf);
      FlatMapSingle(CloseHandle(ChildProcess), OpenOf);
      FlatMapSingle(CloseHandle(ChildProcess), CloseOf);
      assert seq(n, _ => ChildProcess) == seq(n - 1, _ => ChildProcess) + [ChildProcess];
    }
  }

  lemma JoinCallsMap<T>(n: nat, f: Call -> seq<T>)
    ensures FlatMap(JoinCalls(n), f) ==
      if n == 0 then [] else f(Sleep(1000)) + f(ReportStatus(WaitingForExit)) + f(WaitForAll(n)) + FlatMap(CloseCalls(n), f)
  {
    if n > 0 {
      var w := [Sleep(1000), ReportStatus(WaitingForExit), WaitForAll(n)];
      assert w == [Sleep(1000)] + ([ReportStatus(WaitingForExit)] + [WaitForAll(n)]);
      FlatMapAppend(w, CloseCalls(n), f);
      FlatMapCons(Sleep(1000), [ReportStatus(WaitingForExit)] + [WaitForAll(n)], f);
      FlatMapCons(ReportStatus(WaitingForExit), [WaitForAll(n)], f);
      FlatMapSingle(WaitForAll(n), f);
    }
  }

  /**
   * The join waits and sleeps exactly when there are processes, closes one
   * process handle per process and nothing else, and writes no setting.
   */
  lemma JoinFacts(n: nat)
    ensures (WaitForAll(n) in JoinCalls(n)) <==> n > 0
    ensures (Sleep(1000) in JoinCalls(n)) <==> n > 0
    ensures Writes(JoinCalls(n)) == [] && Opens(JoinCalls(n)) == []
    ensures Closes(JoinCalls(n)) == seq(n, _ => ChildProcess)
  {
    JoinWaitsIffNonEmpty(n);
    CloseCallsFacts(n);
    JoinCallsMap(n, WriteOf);
    JoinOpensNothing(n);
    JoinCloses(n);
  }

  lemma JoinWaitsIffNonEmpty(n: nat)
    ensures (WaitForAll(n) in JoinCalls(n)) <==> n > 0
    ensures (Sleep(1000) in JoinCalls(n)) <==> n > 0
  {
    if n > 0 {
      assert JoinCalls(n)[0] == Sleep(1000);
      assert JoinCalls(n)[2] == WaitForAll(n);
    }
  }

  lemma JoinCloses(n: nat)
    ensures Closes(JoinCalls(n)) == seq(n, _ => ChildProcess)
  {
    CloseCallsFacts(n);
    JoinCallsMap(n, CloseOf);
  }

  lemma JoinOpensNothing(n: nat)
    ensures Opens(JoinCalls(n)) == []
  {
    CloseCallsFacts(n);
    JoinCallsMap(n, OpenOf);
  }

  /** The handles one iteration of the launch loop leaves open: a shell token when it leaks one, a process when it starts one. */
  lemma ProgramCallsHandles(path: string, e: ProgramEnv, k: HandleKind)
    ensures var l := ProgramCalls(path, e);
      multiset(Opens(l))[k] == multiset(Closes(l))[k] +
        (if k == ShellToken && Leaks(e) then 1 else 0) + (if k == ChildProcess && Starts(e) then 1 else 0)
    ensures k == ShellToken || k == ChildProcess ==> multiset(Closes(ProgramCalls(path, e)))[k] == 0
  {
    ProgramCallsMap(path, e, OpenOf);
    ProgramCallsMap(path, e, CloseOf);
    if e.onDisk {
      var l := LaunchCalls(path, true, e.launch);
      LaunchLeaves(path, true, e.launch, k);
      assert Opens(ProgramCalls(path, e)) == Opens(l);
      assert Closes(ProgramCalls(path, e)) == Closes(l);
    } else {
      assert Opens(ProgramCalls(path, e)) == [] && Closes(ProgramCalls(path, e)) == [];
    }
  }

  /** The handles a run of the launch loop leaves open of kind k. */
  function LeftOpen(es: seq<ProgramEnv>, k: HandleKind): nat
  {
    match k
    case ShellToken => CountLeaks(es)
    case ChildProcess => |StartedIndices(es)|
    case _ => 0
  }

  /**
   * The launch loop closes every handle it opens exactly once, except one
   * shell token per launch that obtained it and one process per program that
   * started; it closes none of those.
   */
  lemma {:induction false} LaunchPhaseHandles(ps: seq<string>, es: seq<ProgramEnv>, k: HandleKind)
    requires |ps| == |es|
    ensures multiset(Opens(LaunchPhase(ps, es)))[k] == multiset(Closes(LaunchPhase(ps, es)))[k] + LeftOpen(es, k)
    ensures k == ShellToken || k == ChildProcess ==> multiset(Closes(LaunchPhase(ps, es)))[k] == 0
    decreases |ps|
  {
    if ps != [] {
      var n := |ps| - 1;
      LaunchPhaseHandles(ps[..n], es[..n], k);
      ProgramCallsHandles(ps[n], es[n], k);
      FlatMapAppend(LaunchPhase(ps[..n], es[..n]), ProgramCalls(ps[n], es[n]), OpenOf);
      FlatMapAppend(LaunchPhase(ps[..n], es[..n]), ProgramCalls(ps[n], es[n]), CloseOf);
    }
  }

  lemma {:induction false} SameCount(n: nat, k: HandleKind)
    ensures multiset(seq(n, _ => ChildProcess))[k] == if k == ChildProcess then n else 0
  {
    if n > 0 {
      SameCount(n - 1, k);
      assert seq(n, _ => ChildProcess) == seq(n - 1, _ => ChildProcess) + [ChildProcess];
    }
  }

  lemma CountAppend(a: seq<HandleKind>, b: seq<HandleKind>, k: HandleKind)
    ensures multiset(a + b)[k] == multiset(a)[k] + multiset(b)[k]
  {
  }

  /** The join closes one process handle per process and nothing else. */
  lemma JoinCount(n: nat, k: HandleKind)
    ensures multiset(Closes(JoinCalls(n)))[k] == if k == ChildProcess then n else 0
  {
    JoinFacts(n);
    SameCount(n, k);
  }

  /** Applying and restoring the settings opens and closes no handle. */
  lemma SettingsTouchNoHandles(cfg: Config, timeoutReadable: bool, saved: Saved)
    ensures Opens(ApplyCalls(cfg, timeoutReadable)) == [] && Closes(ApplyCalls(cfg, timeoutReadable)) == []
    ensures Opens(RestoreCalls(cfg, saved)) == [] && Closes(RestoreCalls(cfg, saved)) == []
  {
    ApplyTouchesNoHandles(cfg, timeoutReadable);
    RestoreTouchesNoHandles(cfg, saved);
  }

  lemma ApplyTouchesNoHandles(cfg: Config, timeoutReadable: bool)
    ensures Opens(ApplyCalls(cfg, timeoutReadable)) == [] && Closes(ApplyCalls(cfg, timeoutReadable)) == []
  {
    ApplyCallsMap(cfg, timeoutReadable, OpenOf);
    ApplyCallsMap(cfg, timeoutReadable, CloseOf);
  }

  lemma RestoreTouchesNoHandles(cfg: Config, saved: Saved)
    ensures Opens(RestoreCalls(cfg, saved)) == [] && Closes(RestoreCalls(cfg, saved)) == []
  {
    RestoreCallsMap(cfg, saved, OpenOf);
    RevertCallsMap(cfg, saved, OpenOf);
    RestoreCallsMap(cfg, saved, CloseOf);
    RevertCallsMap(cfg, saved, CloseOf);
  }

  /** A five-block log whose first, second and last blocks contribute nothing to the view f. */
  lemma FlatMapOfRun<T>(a: seq<Call>, c: Call, p: seq<Call>, j: seq<Call>, r: seq<Call>, f: Call -> seq<T>)
    requires FlatMap(a, f) == [] && f(c) == [] && FlatMap(r, f) == []
    ensures FlatMap(a + [c] + p + j + r, f) == FlatMap(p, f) + FlatMap(j, f)
  {
    FlatMapAppend(a + [c] + p + j, r, f);
    FlatMapAppend(a + [c] + p, j, f);
    FlatMapAppend(a + [c], p, f);
    FlatMapAppend(a, [c], f);
    FlatMapSingle(c, f);
    assert FlatMap(a + [c] + p + j + r, f) == [] + [] + FlatMap(p, f) + FlatMap(j, f) + [];
  }

  /** Over a run, the handles opened are exactly those the launch loop opens. */
  lemma RunOpens(cfg: Config, env: Env, s0: Settings)
    requires |env.programs| == |Programs(cfg.runUtilApps)|
    ensures Opens(RunCalls(cfg, env, s0)) == Opens(LaunchPhase(Programs(cfg.runUtilApps), env.programs))
  {
    var n := |StartedIndices(env.programs)|;
    SettingsTouchNoHandles(cfg, env.timeoutReadable, Captured(cfg, env.timeoutReadable, s0));
    JoinOpensNothing(n);
    FlatMapOfRun(ApplyCalls(cfg, env.timeoutReadable), ReportStatus(StartingPrograms),
      LaunchPhase(Programs(cfg.runUtilApps), env.programs), JoinCalls(n),
      RestoreCalls(cfg, Captured(cfg, env.timeoutReadable, s0)), OpenOf);
    assert Opens(LaunchPhase(Programs(cfg.runUtilApps), env.programs)) + [] == Opens(LaunchPhase(Programs(cfg.runUtilApps), env.programs));
  }

  /** Over a run, the handles closed are those the launch loop closes and then those the join closes. */
  lemma RunCloses(cfg: Config, env: Env, s0: Settings)
    requires |env.programs| == |Programs(cfg.runUtilApps)|
    ensures Closes(RunCalls(cfg, env, s0)) ==
      Closes(LaunchPhase(Programs(cfg.runUtilApps), env.programs)) + Closes(JoinCalls(|StartedIndices(env.programs)|))
  {
    var saved := Captured(cfg, env.timeoutReadable, s0);
    var p, j := LaunchPhase(Programs(cfg.runUtilApps), env.programs), JoinCalls(|StartedIndices(env.programs)|);
    SettingsTouchNoHandles(cfg, env.timeoutReadable, saved);
    FlatMapOfRun(ApplyCalls(cfg, env.timeoutReadable), ReportStatus(StartingPrograms), p, j, RestoreCalls(cfg, saved), CloseOf);
  }

  /**
   * Over a whole run every handle opened is closed exactly once, except one
   * shell token per launch that obtained it, and no shell token is ever
   * closed: the leak the launcher leaves behind.
   */
  lemma RunHandles(cfg: Config, env: Env, s0: Settings, k: HandleKind)
    requires |env.programs| == |Programs(cfg.runUtilApps)|
    ensures var t := RunCalls(cfg, env, s0);
      multiset(Opens(t))[k] == multiset(Closes(t))[k] + if k == ShellToken then CountLeaks(env.programs) else 0
    ensures multiset(Closes(RunCalls(cfg, env, s0)))[ShellToken] == 0
  {
    var n := |StartedIndices(env.programs)|;
    var p := LaunchPhase(Programs(cfg.runUtilApps), env.programs);
    RunOpens(cfg, env, s0);
    RunCloses(cfg, env, s0);
    LaunchPhaseHandles(Programs(cfg.runUtilApps), env.programs, k);
    LaunchPhaseHandles(Programs(cfg.runUtilApps), env.programs, ShellToken);
    JoinCount(n, k);
    JoinCount(n, ShellToken);
    CountAppend(Closes(p), Closes(JoinCalls(n)), k);
    CountAppend(Closes(p), Closes(JoinCalls(n)), ShellToken);
  }

  /**
   * After a run the execution state is as it was; the screensaver timeout is
   * as it was unless it could not be read (then 0); the processor idle-disable
   * index ends 0 and Wi-Fi ends on whenever their flags are set. So the run
   * leaves the settings exactly as it found them iff neither of those forced
   * values (nor an unreadable timeout) differs from the starting value.
   */
  lemma SettingsRoundTrip(cfg: Config, env: Env, s0: Settings)
    requires |env.programs| == |Programs(cfg.runUtilApps)|
    ensures Replay(s0, RunCalls(cfg, env, s0)) == AfterRun(cfg, env.timeoutReadable, s0)
    ensures Replay(s0, RunCalls(cfg, env, s0)) == s0 <==>
      && (cfg.disableScreensaver && !env.timeoutReadable ==> s0.screenSaveTimeout == 0)
      && (cfg.disableCpuThrottle ==> s0.idleDisable == 0)
      && (cfg.disableWifi ==> s0.wifiEnabled)
  {
    var a := ApplyCalls(cfg, env.timeoutReadable);
    var p := LaunchPhase(Programs(cfg.runUtilApps), env.programs);
    var j := JoinCalls(|StartedIndices(env.programs)|);
    var r := RestoreCalls(cfg, Captured(cfg, env.timeoutReadable, s0));
    var s1 := Replay(s0, a);
    ReplayAppend(s0, a + [ReportStatus(StartingPrograms)] + p + j, r);
    ReplayAppend(s0, a + [ReportStatus(StartingPrograms)] + p, j);
    ReplayAppend(s0, a + [ReportStatus(StartingPrograms)], p);
    ReplayAppend(s0, a, [ReportStatus(StartingPrograms)]);
    ReplayApply(cfg, env.timeoutReadable, s0);
    ReplaySingle(s1, ReportStatus(StartingPrograms));
    LaunchPhaseFacts(Programs(cfg.runUtilApps), env.programs);
    ReplayWithoutWrites(s1, p);
    JoinFacts(|StartedIndices(env.programs)|);
    ReplayWithoutWrites(s1, j);
    ReplayRestore(cfg, Captured(cfg, env.timeoutReadable, s0), s1);
  }

  // The program itself.

  /** main's optimise block: change the flagged settings, keeping the previous execution state and screensaver timeout. */
  method ApplySettings(sys: System, cfg: Config, timeoutReadable: bool) returns (saved: Saved)
    requires sys.Valid()
    modifies sys
    ensures sys.Valid()
    ensures saved == Captured(cfg, timeoutReadable, old(sys.state))
    ensures sys.trace == old(sys.trace) + ApplyCalls(cfg, timeoutReadable)
    ensures sys.state == Applied(cfg, old(sys.state))
    ensures sys.open == old(sys.open) && sys.running == old(sys.running) && sys.next == old(sys.next)
  {
    ghost var t0 := sys.trace;
    ghost var a := [ReportStatus(Optimizing)];
    ghost var b := if cfg.displayRequired then [SetThreadExecutionState(AudioExecutionState)] else [];
    ghost var c := if cfg.disableScreensaver then [GetScreenSaveTimeout(timeoutReadable), SetScreenSaveTimeout(0)] else [];
    ghost var d := if cfg.disableCpuThrottle then [WriteProcessorIdleDisable(1)] else [];
    ghost var e := if cfg.disableWifi then [NetshSetWifi(false)] else [];
    sys.ReportStatus(Optimizing);
    var prevExecState: ExecutionState := 0;
    if cfg.displayRequired {
      prevExecState := sys.SetThreadExecutionState(AudioExecutionState);
    }
    assert sys.trace == t0 + a + b;
    var prevScreenSaverTimeout: uint32 := 0;
    if cfg.disableScreensaver {
      prevScreenSaverTimeout := sys.GetScreenSaveTimeout(timeoutReadable, prevScreenSaverTimeout);
      sys.SetScreenSaveTimeout(0);
      AppendAssoc(t0 + a + b, [GetScreenSaveTimeout(timeoutReadable)], [SetScreenSaveTimeout(0)]);
    }
    assert sys.trace == t0 + a + b + c;
    if cfg.disableCpuThrottle {
      sys.WriteProcessorIdleDisable(1);
    }
    assert sys.trace == t0 + a + b + c + d;
    if cfg.disableWifi {
      sys.NetshSetWifi(false);
    }
    assert sys.trace == t0 + a + b + c + d + e;
    saved := Saved(prevExecState, prevScreenSaverTimeout);
    AppendAssoc(t0, a + b + c + d, e);
    AppendAssoc(t0, a + b + c, d);
    AppendAssoc(t0, a + b, c);
    AppendAssoc(t0, a, b);
  }

  /** main's restore block: put the flagged settings back, then report and pause. */
  method RestoreSettings(sys: System, cfg: Config, saved: Saved)
    requires sys.Valid()
    modifies sys
    ensures sys.Valid()
    ensures sys.trace == old(sys.trace) + RestoreCalls(cfg, saved)
    ensures sys.state == Reverted(cfg, saved, old(sys.state))
    ensures sys.open == old(sys.open) && sys.running == old(sys.running) && sys.next == old(sys.next)
  {
    RevertSettings(sys, cfg, saved);
    ghost var t5 := sys.trace;
    sys.ReportStatus(Completed);
    sys.Sleep(5000);
    AppendAssoc(t5, [ReportStatus(Completed)], [Sleep(5000)]);
    AppendAssoc(old(sys.trace), RevertCalls(cfg, saved), [ReportStatus(Completed), Sleep(5000)]);
  }

  /** The settings part of main's restore block: Wi-Fi, CPU idle, screensaver and display, the reverse of the order they were changed in. */
  method RevertSettings(sys: System, cfg: Config, saved: Saved)
    requires sys.Valid()
    modifies sys
    ensures sys.Valid()
    ensures sys.trace == old(sys.trace) + RevertCalls(cfg, saved)
    ensures sys.state == Reverted(cfg, saved, old(sys.state))
    ensures sys.open == old(sys.open) && sys.running == old(sys.running) && sys.next == old(sys.next)
  {
    ghost var t0 := sys.trace;
    ghost var a := [ReportStatus(Restoring)];
    ghost var b := if cfg.disableWifi then [NetshSetWifi(true)] else [];
    ghost var c := if cfg.disableCpuThrottle then [WriteProcessorIdleDisable(0)] else [];
    ghost var d := if cfg.disableScreensaver then [SetScreenSaveTimeout(saved.screenSaveTimeout)] else [];
    ghost var e := if cfg.displayRequired then [SetThreadExecutionState(saved.execState)] else [];
    sys.ReportStatus(Restoring);
    if cfg.disableWifi {
      sys.NetshSetWifi(true);
    }
    assert sys.trace == t0 + a + b;
    if cfg.disableCpuThrottle {
      sys.WriteProcessorIdleDisable(0);
    }
    assert sys.trace == t0 + a + b + c;
    if cfg.disableScreensaver {
      sys.SetScreenSaveTimeout(saved.screenSaveTimeout);
    }
    assert sys.trace == t0 + a + b + c + d;
    if cfg.displayRequired {
      var _ := sys.SetThreadExecutionState(saved.execState);
    }
    assert sys.trace == t0 + a + b + c + d + e;
    AppendAssoc(t0, a + b + c + d, e);
    AppendAssoc(t0, a + b + c, d);
    AppendAssoc(t0, a + b, c);
    AppendAssoc(t0, a, b);
  }

  /** Handles in increasing order, all allocated in [lo, hi). */
  ghost predicate Ascending(hs: seq<Handle>, lo: Handle, hi: Handle)
  {
    && (forall k :: 0 <= k < |hs| ==> lo <= hs[k] < hi)
    && (forall j, k :: 0 <= j < k < |hs| ==> hs[j] < hs[k])
  }

  /** The open handles after the launch loop: those before, the leaked shell tokens and the started processes. */
  function Opened(before: map<Handle, HandleKind>, leaked: seq<Handle>, processes: seq<Handle>): map<Handle, HandleKind>
  {
    before + (map h | h in leaked :: ShellToken) + (map h | h in processes :: ChildProcess)
  }

  /** One more launch adds its leftover handles to those already open. */
  lemma OpenedGrows(before: map<Handle, HandleKind>, leaked: seq<Handle>, processes: seq<Handle>, token: Handle, process: Handle)
    requires token != NULL ==> token !in processes && token != process
    ensures WithLeftover(Opened(before, leaked, processes), token, process) ==
      Opened(before, Snoc(leaked, token), Snoc(processes, process))
  {
    if token != NULL {
      OpenedAddsToken(before, leaked, processes, token);
    }
    OpenedAddsProcess(before, Snoc(leaked, token), processes, process);
  }

  lemma OpenedAddsToken(before: map<Handle, HandleKind>, leaked: seq<Handle>, processes: seq<Handle>, token: Handle)
    requires token !in processes
    ensures Opened(before, leaked, processes)[token := ShellToken] == Opened(before, leaked + [token], processes)
  {
    var lhs := Opened(before, leaked, processes)[token := ShellToken];
    var rhs := Opened(before, leaked + [token], processes);
    assert forall h :: h in leaked + [token] <==> h in leaked || h == token;
    assert lhs.Keys == rhs.Keys;
    forall h | h in lhs.Keys
      ensures lhs[h] == rhs[h]
    {
    }
  }

  lemma OpenedAddsProcess(before: map<Handle, HandleKind>, leaked: seq<Handle>, processes: seq<Handle>, process: Handle)
    ensures (if process != NULL then Opened(before, leaked, processes)[process := ChildProcess] else Opened(before, leaked, processes))
      == Opened(before, leaked, Snoc(processes, process))
  {
    if process != NULL {
      var lhs := Opened(before, leaked, processes)[process := ChildProcess];
      var rhs := Opened(before, leaked, processes + [process]);
      assert forall h :: h in processes + [process] <==> h in processes || h == process;
      assert lhs.Keys == rhs.Keys;
      forall h | h in lhs.Keys
        ensures lhs[h] == rhs[h]
      {
      }
    }
  }

  /** The body of main's launch loop: launch the program if its path exists, and report a failure. */
  method LaunchOne(sys: System, path: string, e: ProgramEnv) returns (process: Handle, ghost token: Handle)
    requires sys.Valid()
    modifies sys
    ensures sys.Valid()
    ensures sys.trace == old(sys.trace) + ProgramCalls(path, e)
    ensures sys.state == old(sys.state)
    ensures (process != NULL) == Starts(e) && (token != NULL) == Leaks(e)
    ensures process != NULL ==> old(sys.next) <= process < sys.next
    ensures token != NULL ==> old(sys.next) <= token < sys.next && token != process
    ensures sys.open == WithLeftover(old(sys.open), token, process)
    ensures sys.running == if process != NULL then old(sys.running) + {process} else old(sys.running)
    ensures old(sys.next) <= sys.next
  {
    process, token := NULL, NULL;
    var found := sys.PathFileExists(path, e.onDisk);
    if found {
      ghost var t1 := sys.trace;
      process, token := LaunchProgram(sys, path, true, e.launch);
      assert process in sys.open || process == NULL;
      assert token in sys.open || token == NULL;
      if process == NULL {
        sys.ReportStatus(FailedToLaunch(path));
      }
      AppendAssoc(t1, LaunchCalls(path, true, e.launch), if Starts(e) then [] else [ReportStatus(FailedToLaunch(path))]);
    } else {
      sys.ReportStatus(ProgramNotFound(path));
    }
    AppendAssoc(old(sys.trace), [PathFileExists(path, e.onDisk)], ProgramCalls(path, e)[1..]);
  }

  lemma AscendingSnoc(hs: seq<Handle>, lo: Handle, mid: Handle, hi: Handle, h: Handle)
    requires Ascending(hs, lo, mid) && lo <= mid <= h < hi
    ensures Ascending(hs + [h], lo, hi)
  {
  }

  lemma AscendingWiden(hs: seq<Handle>, lo: Handle, hi: Handle, hi': Handle)
    requires Ascending(hs, lo, hi) && hi <= hi'
    ensures Ascending(hs, lo, hi')
  {
  }

  lemma ElementsSnoc(hs: seq<Handle>, h: Handle)
    ensures (set x | x in hs + [h]) == (set x | x in hs) + {h}
  {
  }

  /** The launch loop over a prefix one longer. */
  lemma PhaseSnoc(ps: seq<string>, es: seq<ProgramEnv>, i: nat)
    requires |ps| == |es| && i < |ps|
    ensures LaunchPhase(ps[..i + 1], es[..i + 1]) == LaunchPhase(ps[..i], es[..i]) + ProgramCalls(ps[i], es[i])
    ensures |StartedIndices(es[..i + 1])| == |StartedIndices(es[..i])| + if Starts(es[i]) then 1 else 0
    ensures CountLeaks(es[..i + 1]) == CountLeaks(es[..i]) + if Leaks(es[i]) then 1 else 0
  {
    assert ps[..i + 1][..i] == ps[..i] && es[..i + 1][..i] == es[..i];
  }

  /** s with h appended when h is not NULL. */
  function Snoc(s: seq<Handle>, h: Handle): seq<Handle>
  {
    if h != NULL then s + [h] else s
  }

  /**
   * The handle bookkeeping of the launch loop: `processes` and `leaked` are
   * fresh since `lo`, ascending and disjoint, and together with `openBefore`
   * and `runningBefore` they account for every open and running handle.
   */
  ghost predicate Bookkept(next: Handle, open: map<Handle, HandleKind>, running: set<Handle>,
                           lo: Handle, openBefore: map<Handle, HandleKind>, runningBefore: set<Handle>,
                           processes: seq<Handle>, leaked: seq<Handle>)
  {
    && lo <= next
    && Ascending(processes, lo, next) && Ascending(leaked, lo, next)
    && (forall j, k :: 0 <= j < |processes| && 0 <= k < |leaked| ==> processes[j] != leaked[k])
    && open == Opened(openBefore, leaked, processes)
    && running == runningBefore + set h | h in processes
  }

  /** The bookkeeping survives one launch that returns `process` and leaves `token` open, both fresh. */
  lemma BookkeptGrows(next: Handle, next': Handle, open: map<Handle, HandleKind>, running: set<Handle>,
                      lo: Handle, openBefore: map<Handle, HandleKind>, runningBefore: set<Handle>,
                      processes: seq<Handle>, leaked: seq<Handle>, process: Handle, token: Handle)
    requires Bookkept(next, open, running, lo, openBefore, runningBefore, processes, leaked)
    requires next <= next'
    requires process != NULL ==> next <= process < next'
    requires token != NULL ==> next <= token < next' && token != process
    ensures Bookkept(next', WithLeftover(open, token, process), if process != NULL then running + {process} else running,
                     lo, openBefore, runningBefore, Snoc(processes, process), Snoc(leaked, token))
  {
    OpenedGrows(openBefore, leaked, processes, token, process);
    AscendingWiden(processes, lo, next, next');
    AscendingWiden(leaked, lo, next, next');
    if process != NULL {
      AscendingSnoc(processes, lo, next, next', process);
      ElementsSnoc(processes, process);
    }
    if token != NULL {
      AscendingSnoc(leaked, lo, next, next', token);
    }
  }

  /**
   * One turn of main's launch loop: launches programs[i] and pushes its handle
   * when it started. Stated against the prefix of the program list reached so
   * far, so that afterwards the log, the counts and the bookkeeping cover one
   * more program.
   */
  method LaunchNext(sys: System, programs: seq<string>, envs: seq<ProgramEnv>, i: nat,
                    processes: seq<Handle>, ghost leaked: seq<Handle>, ghost t0: seq<Call>, ghost s0: Settings,
                    ghost lo: Handle, ghost openBefore: map<Handle, HandleKind>, ghost runningBefore: set<Handle>)
    returns (processes': seq<Handle>, process: Handle, ghost leaked': seq<Handle>, ghost token: Handle)
    requires |programs| == |envs| && i < |programs|
    requires sys.Valid()
    requires sys.trace == t0 + LaunchPhase(programs[..i], envs[..i]) && sys.state == s0
    requires |processes| == |StartedIndices(envs[..i])| && |leaked| == CountLeaks(envs[..i])
    requires Bookkept(sys.next, sys.open, sys.running, lo, openBefore, runningBefore, processes, leaked)
    modifies sys
    ensures sys.Valid()
    ensures sys.trace == old(sys.trace) + ProgramCalls(programs[i], envs[i])
    ensures sys.trace == t0 + LaunchPhase(programs[..i + 1], envs[..i + 1]) && sys.state == s0
    ensures (process != NULL) == Starts(envs[i]) && (token != NULL) == Leaks(envs[i])
    ensures process != NULL ==> old(sys.next) <= process < sys.next
    ensures processes' == Snoc(processes, process) && processes'[..|processes|] == processes
    ensures leaked' == Snoc(leaked, token)
    ensures sys.open == WithLeftover(old(sys.open), token, process)
    ensures sys.running == if process != NULL then old(sys.running) + {process} else old(sys.running)
    ensures |processes'| == |StartedIndices(envs[..i + 1])| && |leaked'| == CountLeaks(envs[..i + 1])
    ensures Bookkept(sys.next, sys.open, sys.running, lo, openBefore, runningBefore, processes', leaked')
  {
    ghost var n, open, running := sys.next, sys.open, sys.running;
    process, token := LaunchOne(sys, programs[i], envs[i]);
    BookkeptGrows(n, sys.next, open, running, lo, openBefore, runningBefore, processes, leaked, process, token);
    processes' := if process != NULL then processes + [process] else processes;
    leaked' := Snoc(leaked, token);
    PhaseSnoc(programs, envs, i);
    AppendAssoc(t0, LaunchPhase(programs[..i], envs[..i]), ProgramCalls(programs[i], envs[i]));
  }

  /**
   * main's launch loop. It keeps the non-null process handles, in
   * program order, one per program that starts.
   */
  method LaunchAll(sys: System, programs: seq<string>, envs: seq<ProgramEnv>)
    returns (processes: seq<Handle>, ghost leaked: seq<Handle>)
    requires sys.Valid()
    requires |programs| == |envs|
    modifies sys
    ensures sys.Valid()
    ensures sys.trace == old(sys.trace) + LaunchPhase(programs, envs)
    ensures sys.state == old(sys.state)
    ensures |processes| == |StartedIndices(envs)| && |leaked| == CountLeaks(envs)
    ensures Bookkept(sys.next, sys.open, sys.running, old(sys.next), old(sys.open), old(sys.running), processes, leaked)
  {
    ghost var t0, s0 := sys.trace, sys.state;
    ghost var lo, openBefore, runningBefore := sys.next, sys.open, sys.running;
    processes, leaked := [], [];
    for i := 0 to |programs|
      invariant sys.Valid()
      invariant sys.trace == t0 + LaunchPhase(programs[..i], envs[..i]) && sys.state == s0
      invariant |processes| == |StartedIndices(envs[..i])| && |leaked| == CountLeaks(envs[..i])
      invariant Bookkept(sys.next, sys.open, sys.running, lo, openBefore, runningBefore, processes, leaked)
    {
      var process;
      ghost var token;
      processes, process, leaked, token := LaunchNext(sys, programs, envs, i, processes, leaked, t0, s0, lo, openBefore, runningBefore);
    }
    assert programs[..|programs|] == programs && envs[..|envs|] == envs;
  }

  /**
   * main's wait block: when there are processes, pause, report, wait for all of
   * them to exit, close every handle once and clear the vector.
   */
  method JoinAll(sys: System, processes: seq<Handle>) returns (remaining: seq<Handle>)
    requires sys.Valid()
    requires |processes| <= MAXIMUM_WAIT_OBJECTS
    requires forall k :: 0 <= k < |processes| ==> processes[k] in sys.open && sys.open[processes[k]] == ChildProcess
    requires forall j, k :: 0 <= j < k < |processes| ==> processes[j] != processes[k]
    modifies sys
    ensures sys.Valid()
    ensures remaining == []
    ensures sys.trace == old(sys.trace) + JoinCalls(|processes|)
    ensures sys.state == old(sys.state)
    ensures sys.open == old(sys.open) - set h | h in processes
    ensures sys.running == old(sys.running) - set h | h in processes
    ensures sys.next == old(sys.next)
  {
    remaining := processes;
    if |processes| > 0 {
      sys.Sleep(1000);
      sys.ReportStatus(WaitingForExit);
      sys.WaitForAll(processes);
      ghost var t := sys.trace;
      ghost var m := sys.open;
      for i := 0 to |processes|
        invariant sys.Valid()
        invariant sys.trace == t + CloseCalls(i)
        invariant sys.open == m - set h | h in processes[..i]
        invariant sys.state == old(sys.state) && sys.next == old(sys.next)
        invariant sys.running == old(sys.running) - set h | h in processes
      {
        assert processes[i] !in processes[..i];
        sys.CloseHandle(processes[i]);
        assert processes[..i + 1] == processes[..i] + [processes[i]];
      }
      assert processes[..|processes|] == processes;
      remaining := [];
      AppendAssoc(old(sys.trace), [Sleep(1000), ReportStatus(WaitingForExit), WaitForAll(|processes|)], CloseCalls(|processes|));
    }
  }

  /**
   * main: apply the flagged settings, launch the programs, wait for them,
   * and restore the settings. Afterwards the settings are AfterRun's, every
   * process started is closed and no longer running, and the only handles
   * left open are one shell token per launch that obtained it.
   */
  method Run(sys: System, cfg: Config, env: Env) returns (ghost leaked: seq<Handle>)
    requires sys.Valid()
    requires |env.programs| == |Programs(cfg.runUtilApps)|
    modifies sys
    ensures sys.Valid()
    ensures sys.trace == old(sys.trace) + RunCalls(cfg, env, old(sys.state))
    ensures sys.state == AfterRun(cfg, env.timeoutReadable, old(sys.state))
    ensures sys.running == old(sys.running)
    ensures |leaked| == CountLeaks(env.programs) && Ascending(leaked, old(sys.next), sys.next)
    ensures sys.open == old(sys.open) + map h | h in leaked :: ShellToken
  {
    ghost var s0 := sys.state;
    ghost var t0 := sys.trace;
    var saved := ApplySettings(sys, cfg, env.timeoutReadable);
    sys.ReportStatus(StartingPrograms);
    leaked := LaunchAndJoin(sys, Programs(cfg.runUtilApps), env.programs);
    RestoreSettings(sys, cfg, saved);
    RunTraceRegroups(t0, cfg, env, s0);
  }

  /**
   * main's launch loop and wait block: launch the programs, then wait for and close every process
   * started. Afterwards no process started here is running or open; the only
   * handles left behind are one shell token per launch that obtained it.
   */
  method LaunchAndJoin(sys: System, programs: seq<string>, envs: seq<ProgramEnv>) returns (ghost leaked: seq<Handle>)
    requires sys.Valid()
    requires |programs| == |envs| <= MAXIMUM_WAIT_OBJECTS
    modifies sys
    ensures sys.Valid()
    ensures sys.trace == old(sys.trace) + LaunchPhase(programs, envs) + JoinCalls(|StartedIndices(envs)|)
    ensures sys.state == old(sys.state) && sys.running == old(sys.running)
    ensures |leaked| == CountLeaks(envs) && Ascending(leaked, old(sys.next), sys.next)
    ensures sys.open == old(sys.open) + map h | h in leaked :: ShellToken
  {
    var processes;
    processes, leaked := LaunchAll(sys, programs, envs);
    ghost var started := processes;
    assert forall k :: 0 <= k < |processes| ==> processes[k] in sys.open && sys.open[processes[k]] == ChildProcess;
    processes := JoinAll(sys, processes);
    ClosedAll(old(sys.open), leaked, started, old(sys.next));
    assert sys.running == old(sys.running) by {
      assert forall h :: h in started ==> h !in old(sys.running);
    }
  }

  /** Closing every process handle leaves only what was open before and the leaked tokens. */
  lemma ClosedAll(before: map<Handle, HandleKind>, leaked: seq<Handle>, processes: seq<Handle>, lo: Handle)
    requires forall h :: h in before ==> h < lo
    requires forall k :: 0 <= k < |processes| ==> lo <= processes[k]
    requires forall j, k :: 0 <= j < |processes| && 0 <= k < |leaked| ==> processes[j] != leaked[k]
    ensures Opened(before, leaked, processes) - (set h | h in processes) == before + map h | h in leaked :: ShellToken
  {
  }

  lemma RunTraceRegroups(t0: seq<Call>, cfg: Config, env: Env, s0: Settings)
    requires |env.programs| == |Programs(cfg.runUtilApps)|
    ensures t0 + ApplyCalls(cfg, env.timeoutReadable) + [ReportStatus(StartingPrograms)] +
      LaunchPhase(Programs(cfg.runUtilApps), env.programs) + JoinCalls(|StartedIndices(env.programs)|) +
      RestoreCalls(cfg, Captured(cfg, env.timeoutReadable, s0)) == t0 + RunCalls(cfg, env, s0)
  {
    var a := ApplyCalls(cfg, env.timeoutReadable);
    var p := LaunchPhase(Programs(cfg.runUtilApps), env.programs);
    var j := JoinCalls(|StartedIndices(env.programs)|);
    var r := RestoreCalls(cfg, Captured(cfg, env.timeoutReadable, s0));
    AppendAssoc(t0, a + [ReportStatus(StartingPrograms)] + p + j, r);
    AppendAssoc(t0, a + [ReportStatus(StartingPrograms)] + p, j);
    AppendAssoc(t0, a + [ReportStatus(StartingPrograms)], p);
    AppendAssoc(t0, a, [ReportStatus(StartingPrograms)]);
  }
}
