/** The dark-mode preference: a boolean in memory, a string under the key "pref_dark_mode" in
    the device's storage. */
module ThemeContext {
  import opened Common

  const StorageKey: string := "pref_dark_mode"

  /** `newValue.toString()`. */
  function Serialize(darkMode: bool): string {
    if darkMode then "true" else "false"
  }

  /** On load: nothing stored keeps the current mode; otherwise only "true" means dark. */
  function Parse(stored: Option<string>, current: bool): (darkMode: bool)
    ensures stored.None? ==> darkMode == current
    ensures stored.Some? ==> (darkMode <==> stored.value == "true")
  {
    match stored
    case None => current
    case Some(s) => s == "true"
  }

  /** What is written is read back as the same mode. */
  lemma ParseSerialize(darkMode: bool, current: bool)
    ensures Parse(Some(Serialize(darkMode)), current) == darkMode
  {
  }

  /** The mode in memory and the stored string. */
  datatype ThemeState = ThemeState(darkMode: bool, stored: Option<string>)

  /** `toggleDarkMode`: negate, then store the new mode. */
  function Toggle(s: ThemeState): (r: ThemeState)
    ensures r.darkMode == !s.darkMode
    ensures r.stored == Some(Serialize(r.darkMode))
  {
    var newValue := !s.darkMode;
    ThemeState(newValue, Some(Serialize(newValue)))
  }

  /** After any toggle, a fresh load reads back the mode the toggle set. Two toggles give back the
      mode, and the stored string when it matched the mode before. */
  lemma ToggleRoundTrips(s: ThemeState, current: bool)
    ensures Parse(Toggle(s).stored, current) == Toggle(s).darkMode
    ensures Toggle(Toggle(s)).darkMode == s.darkMode
    ensures s.stored == Some(Serialize(s.darkMode)) ==> Toggle(Toggle(s)) == s
  {
    ParseSerialize(Toggle(s).darkMode, current);
  }

  /** The provider's state, and the storage cell it reads and writes. */
  class ThemeProvider {
    var darkMode: bool
    var stored: Option<string>

    function State(): ThemeState
      reads this
    {
      ThemeState(darkMode, stored)
    }

    /** `useState(false)`, over whatever the storage holds. */
    constructor (stored: Option<string>)
      ensures !darkMode && this.stored == stored
    {
      darkMode := false;
      this.stored := stored;
    }

    /** The effect run on mount. */
    method Load()
      modifies this
      ensures darkMode == Parse(old(stored), old(darkMode)) && stored == old(stored)
    {
      if stored.Some? {
        darkMode := stored.value == "true";
      }
    }

    method ToggleDarkMode()
      modifies this
      ensures State() == Toggle(old(State()))
    {
      var newValue := !darkMode;
      darkMode := newValue;
      stored := Some(Serialize(newValue));
    }
  }
}
