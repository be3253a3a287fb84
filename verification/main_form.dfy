/**
 The one piece of tray-menu logic kept from MultiDisplayTool/MainForm.cs: the
 startup menu item, which removes the startup entry when it is present and
 adds it otherwise.
 */
module MainForm {
  import StartupManager

  function ToggleStartupEntry(key: StartupManager.RunKey, exePath: string, fails: bool): StartupManager.RunKey
  {
    if StartupManager.IsInStartup(key) then StartupManager.RemoveFromStartup(key, fails)
    else StartupManager.AddToStartup(key, exePath, fails)
  }

  /** When the key opens and nothing fails, the menu item flips the
      registration; otherwise the key is left as it was. */
  lemma ToggleFlipsRegistration(key: StartupManager.RunKey, exePath: string, fails: bool)
    ensures key.Opened? && !fails ==>
              StartupManager.IsInStartup(ToggleStartupEntry(key, exePath, fails)) == !StartupManager.IsInStartup(key)
    ensures key.Missing? || fails ==> ToggleStartupEntry(key, exePath, fails) == key
  {
  }

  /** Toggling twice restores a key in which the application was not
      registered. */
  lemma ToggleTwiceRestoresUnregistered(key: StartupManager.RunKey, exePath: string)
    requires key.Opened? && !StartupManager.IsInStartup(key)
    ensures ToggleStartupEntry(ToggleStartupEntry(key, exePath, false), exePath, false) == key
  {
    StartupManager.RemoveUndoesAdd(key, exePath);
  }
}
