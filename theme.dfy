/** The theme state of the client: the mode the user chose, whether the dark palette is in use, and
    the saved preference (src/context/ThemeContext.js). */
module Theme {
  import opened Common

  datatype Palette = LightTheme | DarkTheme

  /** The dark flag that choosing `mode` leads to: fixed for "dark" and "light", the system scheme
      for "auto", and unchanged for any other mode name. */
  function DarkFor(mode: string, systemDark: bool, current: bool): (dark: bool)
    ensures mode == "dark" ==> dark
    ensures mode == "light" ==> !dark
    ensures mode == "auto" ==> dark == systemDark
    ensures mode != "dark" && mode != "light" && mode != "auto" ==> dark == current
  {
    if mode == "dark" then true
    else if mode == "light" then false
    else if mode == "auto" then systemDark
    else current
  }

  /** Choosing the same mode again changes nothing. */
  lemma DarkForIdempotent(mode: string, systemDark: bool, current: bool)
    ensures DarkFor(mode, systemDark, DarkFor(mode, systemDark, current)) == DarkFor(mode, systemDark, current)
  {
  }

  /** The dark flag only depends on the current one for modes other than the three known ones. */
  lemma DarkForKnownModes(mode: string, systemDark: bool, a: bool, b: bool)
    requires mode == "dark" || mode == "light" || mode == "auto"
    ensures DarkFor(mode, systemDark, a) == DarkFor(mode, systemDark, b)
  {
  }

  /** `ThemeProvider`; the effect that copies the system scheme while the mode is "auto" is applied after
      every handler, so its result is part of the state each handler leaves. */
  class ThemeProvider {
    /** `useColorScheme() === 'dark'`. */
    var systemDark: bool
    var isDark: bool
    var themeMode: string
    /** The `themeMode` entry of the device storage. */
    var stored: Option<string>

    /** In "auto" mode the palette follows the system. */
    ghost predicate Valid()
      reads this
    {
      themeMode == "auto" ==> isDark == systemDark
    }

    /** The initial state: mode "auto" and the system scheme. The storage is whatever an earlier run saved. */
    constructor (systemDark: bool, stored: Option<string>)
      ensures Valid()
      ensures themeMode == "auto" && isDark == systemDark
      ensures this.systemDark == systemDark && this.stored == stored
    {
      this.systemDark, this.stored := systemDark, stored;
      isDark, themeMode := systemDark, "auto";
    }

    /** `loadThemePreference`: a saved non-empty mode is adopted, and "dark" or "light" fix the palette;
        nothing saved changes nothing. */
    method LoadPreference()
      requires Valid()
      modifies this
      ensures Valid()
      ensures systemDark == old(systemDark) && stored == old(stored)
      ensures !Truthy(stored) ==> themeMode == old(themeMode) && isDark == old(isDark)
      ensures Truthy(stored) ==> themeMode == stored.value && isDark == DarkFor(stored.value, systemDark, old(isDark))
    {
      if Truthy(stored) {
        var saved := stored.value;
        themeMode := saved;
        if saved == "dark" { isDark := true; }
        if saved == "light" { isDark := false; }
        if themeMode == "auto" { isDark := systemDark; }
      }
    }

    /** The system scheme changes: the palette follows it in "auto" mode and is left alone otherwise. */
    method SystemSchemeChanged(dark: bool)
      requires Valid()
      modifies this
      ensures Valid()
      ensures systemDark == dark && themeMode == old(themeMode) && stored == old(stored)
      ensures isDark == if themeMode == "auto" then dark else old(isDark)
    {
      systemDark := dark;
      if themeMode == "auto" { isDark := systemDark; }
    }

    /** `toggleTheme(mode)`: adopts the mode, saves it, and sets the palette accordingly. `saved` says
        whether the storage write succeeded: when it fails the handler stops after adopting the mode, so
        the storage and the palette stay as they were, except that in "auto" the palette still follows
        the system. */
    method ToggleTheme(mode: string, saved: bool)
      requires Valid()
      modifies this
      ensures Valid()
      ensures themeMode == mode && systemDark == old(systemDark)
      ensures saved ==> stored == Some(mode) && isDark == DarkFor(mode, systemDark, old(isDark))
      ensures !saved ==> stored == old(stored) && isDark == if mode == "auto" then systemDark else old(isDark)
    {
      themeMode := mode;
      if !saved {
        if themeMode == "auto" { isDark := systemDark; }
        return;
      }
      stored := Some(mode);
      if mode == "dark" { isDark := true; }
      if mode == "light" { isDark := false; }
      if mode == "auto" { isDark := systemDark; }
    }

    /** The palette in use. */
    function Theme(): (p: Palette)
      reads this
      ensures p == DarkTheme <==> isDark
    {
      if isDark then DarkTheme else LightTheme
    }
  }

  /** Choosing a mode twice, with both saves succeeding, leaves the same state as choosing it once. */
  method ToggleTwice(p: ThemeProvider, mode: string)
    requires p.Valid()
    modifies p
    ensures p.Valid()
    ensures p.themeMode == mode && p.stored == Some(mode)
    ensures p.isDark == DarkFor(mode, p.systemDark, old(p.isDark))
  {
    p.ToggleTheme(mode, true);
    p.ToggleTheme(mode, true);
    DarkForIdempotent(mode, p.systemDark, old(p.isDark));
  }

  /** A mode chosen with `toggleTheme` and saved survives a restart: a new provider under the same
      system scheme that loads the saved preference ends in the same mode with the same palette. */
  method RestartRestores(p: ThemeProvider, mode: string) returns (q: ThemeProvider)
    requires p.Valid()
    requires mode == "dark" || mode == "light" || mode == "auto"
    modifies p
    ensures p.Valid() && q.Valid()
    ensures q.themeMode == p.themeMode == mode && q.isDark == p.isDark
  {
    p.ToggleTheme(mode, true);
    q := new ThemeProvider(p.systemDark, p.stored);
    q.LoadPreference();
  }

  /** After a failed save of "dark" from the initial state, the mode is "dark" but the palette is still the
      system's (a light palette in dark mode on a light system), and a restart forgets the choice. */
  method FailedSaveOfDark(systemDark: bool) returns (p: ThemeProvider, q: ThemeProvider)
    ensures p.themeMode == "dark" && p.isDark == systemDark
    ensures q.themeMode == "auto" && q.isDark == systemDark
  {
    p := new ThemeProvider(systemDark, None);
    p.ToggleTheme("dark", false);
    q := new ThemeProvider(systemDark, p.stored);
    q.LoadPreference();
  }
}
