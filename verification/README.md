# MultiDisplayTool decision logic in Dafny

MultiDisplayTool is a Windows tray utility. It watches for newly created
windows and asks an external monitor tool to move windows to another display.
It also keeps its tray icon promoted in the notification area and can register
itself to start at logon. This project models the four parts of it that
decide something. Operating-system and registry calls are inputs to the
model, not behaviour of it.

- `WindowMover` (window_mover.dfy) models the window-creation monitor. It is a
  two-state machine over `(isMonitoring, winEventHook)`.
  - `StartMonitoring` takes the handle the hook registration returns.
  - `StopMonitoring` takes the result of the hook release.
  - Both record the system calls they make. This is what lets the model
    state "no call" and "no hook leaked".
  - The event callback `WinEventProc` takes the handle, the answer to the
    visibility query and the style value. It returns the queries it made and
    the monitor names it passed on.
  - The style value is the 64-bit pattern of the C# `long`.
- `Program` (program.dfy) models two things:
  - silent-mode detection on the command line;
  - the three tool actions. Each action appends its argument string to a
    request log. A failed launch is caught and only adds its message to a
    failure log.
- `NotifyIconSettingsUpdater` (notify_icon_settings.dfy) models the update of
  the `Control Panel\NotifyIconSettings` key.
  - The key is an optional list of subkey records. Each record has a name,
    whether it is still found when opened for writing, and its named values.
  - The update checks the setting, then sets `IsPromoted` on the matching
    records.
- `StartupManager` (startup_manager.dfy) models add, remove and query of the
  `MultiDisplayTool` value in the current user's `Run` key.
  - The key is `Missing` or a string-to-string map.
  - A registry exception during a write is an input `fails`.
- `MainForm` (main_form.dfy) keeps only the startup menu item's toggle, as a
  client of `StartupManager`.

The callback tests mask `0x80`, which the code names `WS_EX_TOOLWINDOW`. That
is an extended-style flag. The code tests it against the value read with
`GWL_STYLE` (the plain style), not the extended style. The model does what the
code does: it accepts a window exactly when style bit 28 is set and style
bit 7 is clear. The code's own comment at WindowMover.cs:132 says tool windows
are excluded. Bit 7 of the plain style is not the tool-window flag, so they
are not; the model follows what the code computes.

A failed hook release is modelled as the code does it: both fields are left
unchanged. The flag is not cleared. The invariant "monitoring iff the handle
is non-null" still holds on that path.

## Model

| member | source | states |
|---|---|---|
| `WindowMover.StartMonitoring` | MultiDisplayTool/WindowMover.cs:69-95 | While already monitoring: no state change and no hook call. From idle: exactly one registration for object-creation events only, out of context. The returned handle is stored, and the flag becomes true iff that handle is non-null. Preserves the handle/flag invariant. |
| `WindowMover.StopMonitoring` | MultiDisplayTool/WindowMover.cs:97-113 | While idle: no state change and no release call. While monitoring: one release of the held handle. On success the state is back to the initial one. On failure both fields stay as they were. Preserves the invariant. |
| `WindowMover.RunPreservesValid` | MultiDisplayTool/WindowMover.cs:44-45 | "Monitoring iff the hook handle is non-null" holds after any sequence of Start/Stop calls, with any mix of successful and failed system answers. |
| `WindowMover.RunAccountsForEveryHook` | MultiDisplayTool/WindowMover.cs:71-112 | Over any run, hooks installed minus hooks released equals the change in the number of hooks the monitor believes it holds. No registered handle is lost. |
| `WindowMover.NoHookLeakFromInitial` | MultiDisplayTool/WindowMover.cs:43-45 | From process start, after any run, the invariant holds. The system holds one live hook while monitoring and none otherwise. |
| `WindowMover.StartTwiceInstallsOnce` | MultiDisplayTool/WindowMover.cs:71-94 | Two Starts in a row leave at most one live hook. When the first one succeeds, the second makes no system call. |
| `WindowMover.WinEventProc` | MultiDisplayTool/WindowMover.cs:116-139 | A null handle returns with no query at all. An invisible window is queried for visibility only: no style query and no request. A visible window gets the visibility query and then one `GetWindowLong` with the `GWL_STYLE` index. Exactly one request is made iff the handle is non-null, the window is visible, style bit 28 is set and bit 7 is clear (these are read by shifting, independently of the code's masks). Every request is for "Next". |
| `WindowMover.Accepted` | MultiDisplayTool/WindowMover.cs:127-133 | The events that pass the filter. Every element is an input event that satisfies the filter, and each passing event occurs in the result exactly as many times as in the input (as multisets), so repeated events each count. |
| `WindowMover.DeliverEvents` | MultiDisplayTool/WindowMover.cs:130-137 | Over a stream of events, the number of tool requests equals the number of events passing the filter. Every request is the next-monitor argument string. |
| `WindowMover.FiveEventsThreeAccepted` | MultiDisplayTool/WindowMover.cs:127-133 | Five creation events are given: one null handle, one with bit 0x80 set, and three that pass. Exactly three are accepted. |
| `Program.SilentModeIffFlagPresent` | MultiDisplayTool/Program.cs:30 | Silent mode is detected iff some argument is exactly `--silent`. |
| `Program.ExecuteTool` | MultiDisplayTool/Program.cs:48-68 | The request log grows by exactly the argument string whatever the launch outcome. A failed launch adds its message to the failures and nothing else. |
| `Program.MoveArguments` | MultiDisplayTool/Program.cs:44 | The argument string is `/MoveWindow Primary All` iff the monitor name is exactly `Primary`. It is `/MoveWindow Next All Primary` for every other name, `Next` included. |
| `Program.SetPrimaryDisplay` | MultiDisplayTool/Program.cs:37-40 | Requests exactly `/SetNextPrimary`. |
| `Program.MoveWindowsToNextMonitor` | MultiDisplayTool/Program.cs:42-46 | Adds exactly one request and keeps the earlier ones. The request is the primary form for `Primary` and the next form otherwise. |
| `Program.ArgumentsDistinct` | MultiDisplayTool/Program.cs:39-44 | The three argument strings are pairwise distinct. |
| `Program.PerformIssuesOneIdentifyingRequest` | MultiDisplayTool/Program.cs:37-46 | Each public action issues exactly one tool request and keeps the earlier ones. The request decodes back to the action that produced it. |
| `Program.LaunchOutcomeDoesNotChangeRequests` | MultiDisplayTool/Program.cs:52-68 | The requests an action makes do not depend on whether the launch succeeded. A failure is absorbed and adds exactly one failure entry. |
| `NotifyIconSettingsUpdater.ContainsIffOccurs` | MultiDisplayTool/NotifyIconSettingsUpdater.cs:59 | The substring test used on `ExecutablePath` holds iff the program name occurs at some position of the path. |
| `NotifyIconSettingsUpdater.UpdateNotifyIconSettings` | MultiDisplayTool/NotifyIconSettingsUpdater.cs:23-67 | A setting outside {0, 1} raises the invalid-setting error, whatever the registry holds, and changes nothing. A missing base key raises the missing-key error and changes nothing. Otherwise nothing is raised, and every subkey is replaced by its promoted form, in listed order. |
| `NotifyIconSettingsUpdater.PromoteAllEffect` | MultiDisplayTool/NotifyIconSettingsUpdater.cs:44-64 | The subkey list keeps its length, names and openability. A writable subkey whose `ExecutablePath` is a string containing the program name ends with `IsPromoted` equal to the setting as a DWORD. Every other subkey is unchanged: unopenable ones, ones with no path, a non-string path, or a path without the name. No value other than `IsPromoted` is added, removed or changed. |
| `NotifyIconSettingsUpdater.PromoteKeepsTarget` | MultiDisplayTool/NotifyIconSettingsUpdater.cs:56-62 | Updating a subkey never changes whether it matches. |
| `NotifyIconSettingsUpdater.PromoteAllIdempotent` | MultiDisplayTool/NotifyIconSettingsUpdater.cs:44-64 | Running the update twice with the same arguments equals running it once. |
| `NotifyIconSettingsUpdater.PromoteIgnoresPriorValue` | MultiDisplayTool/NotifyIconSettingsUpdater.cs:57-62 | Take two matching subkeys that differ at most in their prior `IsPromoted` value. They end up identical. |
| `StartupManager.AddToStartup` | MultiDisplayTool/StartupManager.cs:26-49 | If the key is missing or the write fails, the key is unchanged and nothing is raised. Otherwise the `MultiDisplayTool` value is set to the quoted executable path followed by ` --silent`, and every other name keeps its value. |
| `StartupManager.RemoveFromStartup` | MultiDisplayTool/StartupManager.cs:51-78 | If the key is missing or the write fails, the key is unchanged. Otherwise the `MultiDisplayTool` name is absent afterwards, and every other name keeps its value. |
| `StartupManager.IsInStartupIff` | MultiDisplayTool/StartupManager.cs:80-92 | The query is true iff the key opens and holds the `MultiDisplayTool` value. It is false when the key is missing. |
| `StartupManager.AddThenRemoveQueries` | MultiDisplayTool/StartupManager.cs:26-92 | After a successful add the query is true. After a successful removal it is false, including right after an add. |
| `StartupManager.RemoveIdempotent` | MultiDisplayTool/StartupManager.cs:63-71 | Removing twice equals removing once, for every combination of write outcomes. |
| `StartupManager.AddIdempotent` | MultiDisplayTool/StartupManager.cs:41 | Adding twice with the same path equals adding once, for every combination of write outcomes. |
| `StartupManager.RemoveUndoesAdd` | MultiDisplayTool/StartupManager.cs:41-65 | On a key without the entry, a successful add followed by a successful removal gives back the original key. |
| `StartupManager.CommandRoundTrip` | MultiDisplayTool/StartupManager.cs:28-41 | The stored command line gives back the exact executable path it was built from. |
| `StartupManager.StartupEntryIsSilent` | MultiDisplayTool/StartupManager.cs:29 | The argument the startup entry passes is the flag that selects silent mode at launch. |
| `MainForm.ToggleFlipsRegistration` | MultiDisplayTool/MainForm.cs:240-251 | When the key opens and the write succeeds, the startup menu item flips the registration. Otherwise it leaves the key unchanged. |
| `MainForm.ToggleTwiceRestoresUnregistered` | MultiDisplayTool/MainForm.cs:240-251 | Toggling twice from an unregistered state restores the original key. |

## Left out

- `CheckAndStartMonitoring` is called by the tray form but is not defined in WindowMover.cs, which declares the (non-partial) class. It is not modelled, and nothing about it is assumed.
- Win32 calls are inputs of the model, not modelled behaviour: `SetWinEventHook`, `UnhookWinEvent`, `IsWindowVisible`, `GetWindowLong`. The error code read after a failure is only written to the console, so it is not modelled.
- The callback's other parameters (hook handle, event type, object and child ids, thread, time) are ignored by the code. They are not modelled.
- `DeliverEvents` is not tied to the monitor state. Events reach the callback only while the hook is installed, and the system decides that.
- Threading: the system's callback thread and the UI thread touch the static fields without a lock. Concurrency is out of scope. The run lemmas are about sequential calls only.
- The external monitor tool, its path, and the process launch are not modelled. A launch is reduced to its argument string and its outcome.
- Console output, message boxes and settings persistence are not modelled. A launch failure keeps only its exception message.
- Program `Main` is modelled for silent-mode detection only. Window-class setup and running the form are UI.
- The tray form (icon, context menu, session-switch events, settings loading) and the About dialog are UI glue. Only the startup toggle is modelled.
- `UpdateNotifyIconSettings`: exceptions raised mid-loop while opening or writing a subkey are not modelled. In particular a subkey the user may not write raises rather than being skipped; only a subkey that is no longer found is skipped. The code has no catch there, so earlier subkeys would stay updated. The unused read of the prior `IsPromoted` value and the DWORD typing of the write are abstracted to `DWordValue`.
- `IsInStartup`: the code does not catch exceptions here, so a registry exception would propagate. The model has no failure input for the query.
- Run-key values are modelled as strings. The code only checks whether a value exists, whatever its registry kind.
- Registry value names are compared exactly in the model (`map` keys), while the registry compares them case-insensitively. A Run key holding `multidisplaytool` counts as registered for the real query and is overwritten by the real add; in the model the query is false and the add creates a second name. The same applies to `ExecutablePath` and `IsPromoted` in the notification-icon subkeys.
