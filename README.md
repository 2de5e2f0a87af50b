# OptForAudio in Dafny

OptForAudio is a small Windows tool. It prepares a laptop for real-time audio and then restores it:

1. Keep the display and the system awake.
2. Set the screensaver timeout to 0.
3. Disable processor idle states in the active power scheme.
4. Turn the Wi-Fi interface off.
5. Launch the audio programs without the tool's own elevation.
6. Wait for those programs to exit.
7. Undo the four changes.

This project models the two parts of `OptForAudio.cpp` that hold real logic:

- the settings transaction and launch loop of `main`;
- the de-elevation chain of `LaunchProgram`.

The operating system is abstract. It is a class `Win32.System` that holds:

- the four settings;
- a table of open handles (a handle is a number, and 0 is `NULL`);
- the set of child processes still running;
- a log of every call the program makes.

Each Win32 call is one method of that class. A fallible call takes its outcome as a parameter, so every combination of failures can be reasoned about.

The model has three modules:

- `Win32` (`win32.dfy`): the abstract machine. `Replay` gives the settings after a log of calls. `FlatMap` and its views (`Writes`, `Opens`, `Closes`, `Expansions`, `Creates`) list what a log writes, opens, closes, expands and runs, in order. `Launcher` adds the view `Steps`, the fallible steps a log records.
- `Launcher` (`launcher.dfy`): `LaunchProgram`, written as the source's blocks and early returns. Three specification functions sit beside it:
  - `Decide`: how a launch ends;
  - `Tried`: which fallible steps a launch attempts, in order;
  - `LaunchCalls`: the full log of one launch.
- `OptForAudio` (`optforaudio.dfy`): `main`, as `Run` and its phases. Three specification functions sit beside it:
  - `RunCalls`: the log of a whole run;
  - `Applied`: the settings while the programs run;
  - `AfterRun`: the settings when the tool exits.

Every method's `ensures` ties its new log and state to these functions. The lemmas prove the properties the tool promises, for all feature flags and all outcomes:

- Restoration writes the settings in exactly the reverse of the apply order, each under the same flag as its apply.
- The execution state ends as it started. The screensaver timeout ends as it started when it could be read; when `SPI_GETSCREENSAVETIMEOUT` fails, it ends at 0. The idle-disable index ends at 0 when its flag is set. When the Wi-Fi flag is set, the last `netsh` command issued enables the interface.
- Restoration runs whether zero, some or all launches succeed.
- Only existing paths are launched.
- Every process handle is closed exactly once.
- The shell token that `LaunchProgram` opens is never closed.

Some behaviours of the code are worth stating on their own:

- Restoration runs in the reverse of the apply order (`OptForAudio.cpp:132-150`).
- In `LaunchProgram`, a failure of `GetShellWindow`, `GetWindowThreadProcessId`, `OpenProcess`, `OpenProcessToken` or `DuplicateTokenEx` returns `nullptr` without trying `CreateProcess` (`OptForAudio.cpp:179-218`). Only a failure of `CreateProcessWithTokenW` falls back to `CreateProcess`.
- Both create calls run the expanded command line, not the one passed in (`OptForAudio.cpp:159-162`, `221-222`, `234-235`).
- The `TOKEN_DUPLICATE` shell token is leaked once per launch that obtains it. `LaunchLeaves` and `RunHandles` state this leak as a proved property.
- The feature flags are fixed globals (`OptForAudio.cpp:35-39`). The model takes them as a `Config` parameter, and `DefaultConfig` holds the shipped values.

## Model

| member | source | states |
|---|---|---|
| `Win32.System.SetThreadExecutionState` | OptForAudio.cpp:51 | returns the execution state in force before the call and installs the requested flags; nothing else changes |
| `Win32.System.GetScreenSaveTimeout` | OptForAudio.cpp:56 | on success the out value is the current timeout; on failure it keeps the value it had (0 at line 53); the settings are unchanged |
| `Win32.System.SetScreenSaveTimeout` | OptForAudio.cpp:57 | only the screensaver timeout changes, to the given value |
| `Win32.System.WriteProcessorIdleDisable` | OptForAudio.cpp:67-70 | only the idle-disable index of the active scheme changes, to the given value |
| `Win32.System.NetshSetWifi` | OptForAudio.cpp:73-77 | the netsh command is logged as issued; only the Wi-Fi flag changes |
| `Win32.System.PathFileExists` | OptForAudio.cpp:98 | answers the existence oracle and changes no setting |
| `Win32.System.ExpandEnvironmentStrings` | OptForAudio.cpp:159-162 | returns the oracle's expansion, logs which command line was expanded, changes no setting |
| `Win32.System.GetShellWindow` | OptForAudio.cpp:179 | reports the injected outcome; no handle is opened |
| `Win32.System.GetWindowThreadProcessId` | OptForAudio.cpp:186-187 | reports the injected outcome; no handle is opened |
| `Win32.System.OpenProcess` | OptForAudio.cpp:194 | on success opens exactly one fresh shell-process handle; on failure returns NULL and opens nothing |
| `Win32.System.OpenProcessToken` | OptForAudio.cpp:202 | needs an open shell-process handle; on success opens one fresh shell-token handle, otherwise returns NULL |
| `Win32.System.DuplicateTokenEx` | OptForAudio.cpp:212-214 | needs an open shell token; on success opens one fresh primary-token handle, otherwise returns NULL |
| `Win32.System.CreateProcessWithToken` | OptForAudio.cpp:221-222 | needs an open primary token; logs the command line it runs; on success opens a fresh process and thread handle and the process runs; on failure the PROCESS_INFORMATION stays as given |
| `Win32.System.CreateProcess` | OptForAudio.cpp:234-235 | logs the command line it runs; on success opens a fresh process and thread handle and the process runs; on failure nothing changes |
| `Win32.System.CloseHandle` | OptForAudio.cpp:122-123 | needs an open handle; removes exactly that handle and logs its kind |
| `Win32.System.Sleep` | OptForAudio.cpp:118 | logs the pause; nothing else changes |
| `Win32.System.WaitForAll` | OptForAudio.cpp:120 | needs open process handles; afterwards none of them is running, and all stay open |
| `Win32.System.ReportStatus` | OptForAudio.cpp:247-253 | logs a status event; nothing else changes |
| `Launcher.LaunchProgram` | OptForAudio.cpp:156-245 | log is `LaunchCalls`; returns a non-NULL handle iff `Decide` says launched; the shell token stays open iff the first four steps succeed; the only handles left open are that token and the returned process |
| `Launcher.LaunchWithShellToken` | OptForAudio.cpp:171-244 | with the shell token: a process iff the token is obtained and duplicated and one of the two creates succeeds; the shell token is left open whenever it was obtained |
| `Launcher.ShellTokenBlock` | OptForAudio.cpp:171-229 | continues only when the token is obtained and duplicated; the created process exists iff `CreateProcessWithTokenW` succeeds; the primary token is closed |
| `Launcher.AcquireShellToken` | OptForAudio.cpp:179-210 | returns the shell token iff window, process id, process and token steps all succeed; the shell-process handle never remains open |
| `Launcher.TokenOfShellProcess` | OptForAudio.cpp:201-210 | the shell-process handle is closed on both the failure and the success path; the token is returned iff `OpenProcessToken` succeeds |
| `Launcher.CreateWithShellToken` | OptForAudio.cpp:212-228 | duplication failure returns with no create call; otherwise the primary token is closed after the create attempt, whatever its result |
| `Launcher.FinishLaunch` | OptForAudio.cpp:231-244 | runs `CreateProcess` exactly when asked to; on its failure returns NULL; on success closes the thread handle and returns only the process handle |
| `Launcher.DecideAgreesWithTried` | OptForAudio.cpp:171-241 | a launch fails iff the last step it attempts fails, and at that step; it ends in the fallback iff the shell route reached `CreateProcess` and that succeeded |
| `Launcher.FallbackIff` | OptForAudio.cpp:220-241 | `CreateProcess` is attempted iff the shell token is not used, or every token step succeeded and `CreateProcessWithTokenW` failed |
| `Launcher.EarlyFailureIsFinal` | OptForAudio.cpp:179-218 | a failure in any token step ends the launch failed at a token step, with neither create call attempted |
| `Launcher.DirectRoute` | OptForAudio.cpp:231-241 | without the shell token the only step is `CreateProcess`; the launch succeeds iff it does; no shell token is opened |
| `Launcher.ShellTokenOpenedIff` | OptForAudio.cpp:194-210 | the shell token is obtained iff the shell token is used and the first four steps succeed |
| `Launcher.LaunchedIff` | OptForAudio.cpp:179-244 | a launch yields a process iff (shell route) the token is obtained and duplicated and either create succeeds, or (direct) `CreateProcess` succeeds |
| `Launcher.StepsOfLaunch` | OptForAudio.cpp:171-241 | the fallible calls in the launch log are exactly the steps `Tried` lists, in order |
| `Launcher.LaunchRunsExpanded` | OptForAudio.cpp:159-235 | every `CreateProcessWithTokenW` and `CreateProcess` call of a launch runs the expanded command line, one call per create step `Tried` lists |
| `Launcher.LaunchExpandsOnce` | OptForAudio.cpp:159-162 | each launch expands its own command line exactly once |
| `Launcher.LaunchWritesNothing` | OptForAudio.cpp:156-245 | a launch changes none of the four settings |
| `Launcher.OpensOfLaunch` | OptForAudio.cpp:194-235 | the handle kinds a launch opens, in order, for every outcome |
| `Launcher.ClosesOfLaunch` | OptForAudio.cpp:205-243 | the handle kinds a launch closes, in order: the shell process whenever opened, the primary token whenever duplicated, the thread on success |
| `Launcher.ChainLeaves` | OptForAudio.cpp:194-228 | of the token-chain handles, all are closed except the shell token, which is never closed |
| `Launcher.LaunchLeaves` | OptForAudio.cpp:194-244 | per handle kind, opens = closes + one shell token (if obtained) + one process (if launched); shell tokens and processes are never closed by a launch |
| `OptForAudio.Programs` | OptForAudio.cpp:82-92 | the two utilities first when enabled, AmpliTube always last |
| `OptForAudio.StartedIndices` | OptForAudio.cpp:96-112 | the programs that start, each exactly once and in program order |
| `OptForAudio.ApplySettings` | OptForAudio.cpp:49-77 | log is display, screensaver, CPU idle, Wi-Fi, each under its flag; returns the captured previous execution state and timeout; settings become `Applied` |
| `OptForAudio.RevertSettings` | OptForAudio.cpp:130-150 | log is Wi-Fi, CPU idle, screensaver, display, each under its flag; writes back the saved values and the fixed values 0 and enabled |
| `OptForAudio.RestoreSettings` | OptForAudio.cpp:128-153 | the revert, then the completion report and the 5 s pause |
| `OptForAudio.LaunchOne` | OptForAudio.cpp:96-111 | launches only if the path exists; returns a process iff the program starts; reports "not found" or "failed to launch" otherwise |
| `OptForAudio.LaunchNext` | OptForAudio.cpp:96-112 | one loop turn: the log grows by that program's calls; a fresh handle is appended to `processes` iff the program starts, and the earlier entries are kept; the new open handles are exactly that process and a leaked shell token iff one was obtained; the loop invariant carries to the next program |
| `OptForAudio.LaunchAll` | OptForAudio.cpp:94-112 | the loop's log is `LaunchPhase`; `processes` holds one fresh, distinct, ascending handle per started program, all open and running |
| `OptForAudio.JoinAll` | OptForAudio.cpp:114-126 | sleeps and waits only when `processes` is non-empty; every handle is closed exactly once, none stays running, the vector ends empty |
| `OptForAudio.LaunchAndJoin` | OptForAudio.cpp:94-126 | afterwards no started process is running or open; the only new open handles are the leaked shell tokens |
| `OptForAudio.Run` | OptForAudio.cpp:45-154 | log is `RunCalls`, which always ends with the restore block; final settings are `AfterRun`; running set unchanged; only leaked shell tokens remain open |
| `OptForAudio.DefaultConfigWritesAll` | OptForAudio.cpp:35-39 | with the shipped flags all four settings are changed and restored in reverse order, and AmpliTube is the only program launched |
| `OptForAudio.ApplyWrites` | OptForAudio.cpp:51-77 | apply writes display, screensaver, CPU idle, Wi-Fi in that order, each exactly when its flag is set |
| `OptForAudio.RestoreWrites` | OptForAudio.cpp:132-150 | restore writes Wi-Fi, CPU idle, screensaver, display in that order, each exactly when its flag is set |
| `OptForAudio.RestoreReversesApply` | OptForAudio.cpp:51-150 | the settings restore writes are exactly the reverse of those apply writes |
| `OptForAudio.ReplayApply` | OptForAudio.cpp:51-77 | while the programs run, each flagged setting holds its applied value and the others are unchanged |
| `OptForAudio.ReplayRestore` | OptForAudio.cpp:130-153 | after restore, each flagged setting holds its saved or fixed value and the others are unchanged |
| `OptForAudio.ProgramCallsFacts` | OptForAudio.cpp:98-111 | one loop iteration writes no setting and expands the path iff it exists |
| `OptForAudio.LaunchPhaseFacts` | OptForAudio.cpp:96-112 | the loop writes no setting and calls `LaunchProgram` for exactly the existing paths, in order |
| `OptForAudio.JoinFacts` | OptForAudio.cpp:116-126 | the wait and the 1 s sleep happen iff there are processes; one process-handle close per process; no setting written |
| `OptForAudio.ProgramCallsHandles` | OptForAudio.cpp:98-111 | one iteration leaves open exactly one shell token if it obtained one and one process if it started one |
| `OptForAudio.LaunchPhaseHandles` | OptForAudio.cpp:94-112 | the loop closes every handle it opens except one leaked token per launch that obtained it and one process per started program |
| `OptForAudio.JoinCount` | OptForAudio.cpp:122-125 | the join closes one process handle per process and nothing else |
| `OptForAudio.SettingsTouchNoHandles` | OptForAudio.cpp:49-150 | the apply and restore blocks open and close no handle |
| `OptForAudio.RunHandles` | OptForAudio.cpp:45-154 | over a run, per kind, opens = closes, except one shell token per launch that obtained it, and no shell token is ever closed |
| `OptForAudio.SettingsRoundTrip` | OptForAudio.cpp:51-150 | final settings are `AfterRun`: execution state as before; timeout as before when it could be read, else 0; idle-disable 0 and Wi-Fi on when flagged; they equal the starting settings iff each forced value (timeout 0 after a failed read, idle-disable 0, Wi-Fi on) already held |

## Left out

- The real Win32 semantics of the execution-state, screensaver, power-scheme, token and process APIs are not modelled. Each is an abstract state update whose success or failure is injected.
- `SetThreadExecutionState`, `SystemParametersInfo(SPI_SETSCREENSAVETIMEOUT)` and the three power-scheme calls are taken to succeed. The source ignores their results; a failed `SetThreadExecutionState` returning 0 is not modelled. Only a failed `SPI_GETSCREENSAVETIMEOUT` is modelled: the saved timeout then stays 0, and 0 is written back.
- The `netsh` commands run asynchronously through `start /min` (`OptForAudio.cpp:76`, `135`). The model takes each effect as immediate, in issue order. The disable and the enable are not waited for and can race, so the model does not capture the case where the disable takes effect last and Wi-Fi stays off.
- `WaitForMultipleObjects(..., INFINITE)` blocks. The model collapses it into one step after which every waited process has exited. The 1 s and 5 s `Sleep` calls are only logged.
- `ExpandEnvironmentStringsW` and its 2048-character buffer are not modelled; the expansion comes from an oracle string. `PathFileExists` is an existence oracle.
- `ReportStatus` formatting and output are not modelled; each report is a logged status event.
- Access masks, creation flags, `STARTUPINFO`, `GetLastError` and the hard-coded program paths are not modelled beyond constants.
- Handle values are chosen by the model as fresh increasing numbers, not by the operating system.
- `OptForAudio.JoinAll`, `OptForAudio.LaunchAndJoin`: these require at most `MAXIMUM_WAIT_OBJECTS` (64) processes. `WaitForMultipleObjects` demands this; the source never checks it, and its program list has at most three entries.
