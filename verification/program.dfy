/**
 Model of the entry point and the external-tool actions of MultiDisplayTool
 (MultiDisplayTool/Program.cs).

 The program never moves windows itself: every user-visible action becomes one
 launch of an external monitor tool with one of three fixed argument strings.
 The launch is modelled as appending those arguments to a request log; whether
 the process could be started is an input (`Launch`), and a failed launch is
 caught, so it only adds a message to the log of failures shown to the user.
 */
module Program {
  import opened Wrappers

  /** The command-line flag that starts the application without its balloon tip. */
  const SilentFlag: string := "--silent"

  /** The three argument strings handed to the external tool. */
  const SetNextPrimaryArguments: string := "/SetNextPrimary"
  const MovePrimaryArguments: string := "/MoveWindow Primary All"
  const MoveNextArguments: string := "/MoveWindow Next All Primary"

  /** The monitor names callers pass to `MoveWindowsToNextMonitor`. */
  const PrimaryMonitor: string := "Primary"
  const NextMonitor: string := "Next"

  /** Silent-mode detection: a left-to-right scan of the arguments for an
      element equal to the flag, as a sequence membership test does it. */
  function IsSilentMode(args: seq<string>): bool
  {
    |args| > 0 && (args[0] == SilentFlag || IsSilentMode(args[1..]))
  }

  /** Silent mode is detected exactly when some argument is the flag itself
      (no prefix, substring or case-insensitive match). */
  lemma {:induction false} SilentModeIffFlagPresent(args: seq<string>)
    ensures IsSilentMode(args) <==> exists i :: 0 <= i < |args| && args[i] == SilentFlag
  {
    if |args| > 0 {
      SilentModeIffFlagPresent(args[1..]);
      if IsSilentMode(args[1..]) {
        var i :| 0 <= i < |args[1..]| && args[1..][i] == SilentFlag;
        assert args[i + 1] == SilentFlag;
      }
      if exists i :: 0 <= i < |args| && args[i] == SilentFlag {
        var i :| 0 <= i < |args| && args[i] == SilentFlag;
        if i > 0 {
          assert args[1..][i - 1] == SilentFlag;
        }
      }
    }
  }

  /** Outcome of starting the external tool's process. */
  datatype Launch = Launched | LaunchFailed(message: string)

  /** The argument strings of every launch attempted, in order, and the
      messages of the launch failures reported to the user. */
  datatype ToolLog = ToolLog(requests: seq<string>, failures: seq<string>)

  /** Starts the tool with `arguments`; a launch failure is caught and
      reported, never propagated, so the request is logged either way. */
  function ExecuteTool(log: ToolLog, arguments: string, launch: Launch): (log': ToolLog)
    ensures log'.requests == log.requests + [arguments]
    ensures launch.Launched? ==> log'.failures == log.failures
    ensures launch.LaunchFailed? ==> log'.failures == log.failures + [launch.message]
  {
    match launch
    case Launched => log.(requests := log.requests + [arguments])
    case LaunchFailed(message) => ToolLog(log.requests + [arguments], log.failures + [message])
  }

  /** The argument string chosen for a monitor name: only the exact name
      "Primary" selects the primary-monitor form; every other name,
      "Next" included, selects the next-monitor form. */
  function MoveArguments(monitor: string): (arguments: string)
    ensures arguments == MovePrimaryArguments <==> monitor == PrimaryMonitor
    ensures arguments == MoveNextArguments <==> monitor != PrimaryMonitor
  {
    if monitor == PrimaryMonitor then MovePrimaryArguments else MoveNextArguments
  }

  function SetPrimaryDisplay(log: ToolLog, launch: Launch): (log': ToolLog)
    ensures log'.requests == log.requests + [SetNextPrimaryArguments]
  {
    ExecuteTool(log, SetNextPrimaryArguments, launch)
  }

  function MoveWindowsToNextMonitor(log: ToolLog, monitor: string, launch: Launch): (log': ToolLog)
    ensures |log'.requests| == |log.requests| + 1
    ensures log'.requests[..|log.requests|] == log.requests
    ensures monitor == PrimaryMonitor ==> log'.requests[|log.requests|] == MovePrimaryArguments
    ensures monitor != PrimaryMonitor ==> log'.requests[|log.requests|] == MoveNextArguments
  {
    ExecuteTool(log, MoveArguments(monitor), launch)
  }

  /** The public actions the tray menu and the window monitor can trigger. */
  datatype Action = SetNextPrimary | MoveToPrimary | MoveToNext

  function Perform(log: ToolLog, action: Action, launch: Launch): ToolLog
  {
    match action
    case SetNextPrimary => SetPrimaryDisplay(log, launch)
    case MoveToPrimary => MoveWindowsToNextMonitor(log, PrimaryMonitor, launch)
    case MoveToNext => MoveWindowsToNextMonitor(log, NextMonitor, launch)
  }

  /** Reads back which action a tool request came from. */
  function ActionOf(arguments: string): Option<Action>
  {
    if arguments == SetNextPrimaryArguments then Some(SetNextPrimary)
    else if arguments == MovePrimaryArguments then Some(MoveToPrimary)
    else if arguments == MoveNextArguments then Some(MoveToNext)
    else None
  }

  /** The three argument strings are pairwise distinct. */
  lemma ArgumentsDistinct()
    ensures SetNextPrimaryArguments != MovePrimaryArguments
    ensures SetNextPrimaryArguments != MoveNextArguments
    ensures MovePrimaryArguments != MoveNextArguments
  {
  }

  /** Each public action issues exactly one tool request, the rest of the
      request log is kept, and the request identifies the action. */
  lemma {:induction false} PerformIssuesOneIdentifyingRequest(log: ToolLog, action: Action, launch: Launch)
    ensures var log' := Perform(log, action, launch);
      && |log'.requests| == |log.requests| + 1
      && log'.requests[..|log.requests|] == log.requests
      && ActionOf(log'.requests[|log.requests|]) == Some(action)
  {
    ArgumentsDistinct();
  }

  /** A failed launch does not change which requests were made: the failure
      is absorbed by the action and only shows up among the failures. */
  lemma LaunchOutcomeDoesNotChangeRequests(log: ToolLog, action: Action, l1: Launch, l2: Launch)
    ensures Perform(log, action, l1).requests == Perform(log, action, l2).requests
    ensures |Perform(log, action, l1).failures| == |log.failures| + (if l1.Launched? then 0 else 1)
  {
  }
}
