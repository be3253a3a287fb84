/**
 Model of the logon-startup registration (MultiDisplayTool/StartupManager.cs).

 The current user's `Run` key is either missing (it cannot be opened) or a
 map from value names to command lines. Registry exceptions raised while the
 key is written are an input `fails`; they are caught and logged, so the
 operation then leaves the key as it was and returns normally.
 */
module StartupManager {
  import opened Wrappers
  import Program

  const AppName: string := "MultiDisplayTool"

  /** The argument the startup entry passes to the application. */
  const StartupArguments: string := "--silent"

  /** What follows the executable path in the startup command. */
  const CommandTail: string := "\" " + StartupArguments

  datatype RunKey = Missing | Opened(values: map<string, string>)

  /** The command line stored for the application: the quoted executable
      path followed by the startup arguments. */
  function StartupCommand(exePath: string): string
  {
    "\"" + exePath + CommandTail
  }

  /** Reads the executable path back out of a command of that form. */
  function CommandExePath(command: string): Option<string>
  {
    if |command| >= 1 + |CommandTail| && command[0] == '"'
       && command[|command| - |CommandTail|..] == CommandTail
    then Some(command[1..|command| - |CommandTail|])
    else None
  }

  /** The stored command keeps the executable path intact. */
  lemma CommandRoundTrip(exePath: string)
    ensures CommandExePath(StartupCommand(exePath)) == Some(exePath)
  {
    var c := StartupCommand(exePath);
    assert c[0] == '"';
    assert c[|c| - |CommandTail|..] == CommandTail;
    assert c[1..|c| - |CommandTail|] == exePath;
  }

  /** An application launched from the entry starts in silent mode. */
  lemma StartupEntryIsSilent()
    ensures Program.IsSilentMode([StartupArguments])
  {
  }

  /** `exePath` is the location of the running executable. */
  function AddToStartup(key: RunKey, exePath: string, fails: bool): (key': RunKey)
    ensures key.Missing? || fails ==> key' == key
    ensures key.Opened? && !fails ==>
              && key'.Opened?
              && key'.values.Keys == key.values.Keys + {AppName}
              && key'.values[AppName] == StartupCommand(exePath)
              && forall n :: n in key.values && n != AppName ==> key'.values[n] == key.values[n]
  {
    match key
    case Missing => key
    case Opened(values) => if fails then key else Opened(values[AppName := StartupCommand(exePath)])
  }

  function RemoveFromStartup(key: RunKey, fails: bool): (key': RunKey)
    ensures key.Missing? || fails ==> key' == key
    ensures key.Opened? && !fails ==>
              && key'.Opened?
              && key'.values.Keys == key.values.Keys - {AppName}
              && forall n :: n in key'.values ==> key'.values[n] == key.values[n]
  {
    match key
    case Missing => key
    case Opened(values) =>
      if fails then key
      else if AppName in values then Opened(values - {AppName})
      else key
  }

  function IsInStartup(key: RunKey): bool
  {
    match key
    case Missing => false
    case Opened(values) => AppName in values
  }

  /** The query is true exactly when the key opens and holds the entry. */
  lemma IsInStartupIff(key: RunKey)
    ensures IsInStartup(key) <==> key.Opened? && AppName in key.values
    ensures key.Missing? ==> !IsInStartup(key)
  {
  }

  /** After a successful add the application is registered; after a
      successful removal it is not. */
  lemma AddThenRemoveQueries(key: RunKey, exePath: string)
    requires key.Opened?
    ensures IsInStartup(AddToStartup(key, exePath, false))
    ensures !IsInStartup(RemoveFromStartup(key, false))
    ensures !IsInStartup(RemoveFromStartup(AddToStartup(key, exePath, false), false))
  {
  }

  /** Removal is idempotent, on every outcome. */
  lemma RemoveIdempotent(key: RunKey, first: bool, second: bool)
    ensures RemoveFromStartup(RemoveFromStartup(key, first), second)
            == RemoveFromStartup(key, first && second)
  {
    if key.Opened? && !first {
      assert AppName !in RemoveFromStartup(key, first).values;
    }
  }

  /** Adding is idempotent too: a second add with the same path stores the
      same map. */
  lemma AddIdempotent(key: RunKey, exePath: string, first: bool, second: bool)
    ensures AddToStartup(AddToStartup(key, exePath, first), exePath, second)
            == AddToStartup(key, exePath, first && second)
  {
    if key.Opened? && !first && !second {
      var m := key.values[AppName := StartupCommand(exePath)];
      assert m[AppName := StartupCommand(exePath)] == m;
    }
  }

  /** Removing right after an add restores a key that held no entry. */
  lemma RemoveUndoesAdd(key: RunKey, exePath: string)
    requires key.Opened? && AppName !in key.values
    ensures RemoveFromStartup(AddToStartup(key, exePath, false), false) == key
  {
    assert key.values[AppName := StartupCommand(exePath)] - {AppName} == key.values;
  }
}
