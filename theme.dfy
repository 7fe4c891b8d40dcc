/** The colour theme (hooks/useTheme.ts): read once from the browser's
    storage, toggled between light and dark, and applied after every change
    as the root element's 'dark' class and a storage write. The theme is a
    string because a stored value is taken without a check. */
module Theme {
  import opened Wrappers

  const ThemeKey: string := "theme"
  const Light: string := "light"
  const Dark: string := "dark"

  /** The state initialiser: the stored theme when there is a window and a
      non-empty stored value; "light" on the server, without a stored value,
      or when reading storage throws. */
  function InitialTheme(hasWindow: bool, storageFails: bool, stored: map<string, string>): (t: string)
    ensures t != ""
    ensures hasWindow && !storageFails && ThemeKey in stored && stored[ThemeKey] != "" ==> t == stored[ThemeKey]
    ensures !(hasWindow && !storageFails && ThemeKey in stored && stored[ThemeKey] != "") ==> t == Light
  {
    if hasWindow && !storageFails && ThemeKey in stored && stored[ThemeKey] != "" then stored[ThemeKey]
    else Light
  }

  /** `toggleTheme`'s updater. */
  function Toggle(t: string): (r: string)
    ensures r == Dark <==> t == Light
    ensures r == Light <==> t != Light
  {
    if t == Light then Dark else Light
  }

  /** Toggling twice restores light and dark; any other stored value becomes
      light, then dark. */
  lemma ToggleTwice(t: string)
    ensures t == Light || t == Dark ==> Toggle(Toggle(t)) == t
    ensures t != Light && t != Dark ==> Toggle(t) == Light && Toggle(Toggle(t)) == Dark
  {
    assert Light[0] != Dark[0];
  }

  /** What `useTheme` finds: the provider's theme, or nothing outside a
      provider. */
  datatype Context = Context(theme: string)

  /** `useTheme`: outside a provider it throws. */
  function UseTheme(context: Option<Context>): (r: Result<string, string>)
    ensures r.Failure? <==> context.None?
    ensures context.Some? ==> r == Success(context.value.theme)
  {
    if context.None? then Failure("useTheme must be used within a ThemeProvider")
    else Success(context.value.theme)
  }

  class ThemeProvider {
    var theme: string
    /** Whether the root element carries the 'dark' class. */
    var rootDark: bool
    var storage: map<string, string>

    constructor (hasWindow: bool, storageFails: bool, stored: map<string, string>, rootWasDark: bool)
      ensures theme == InitialTheme(hasWindow, storageFails, stored)
      ensures storage == stored && rootDark == rootWasDark
    {
      theme := InitialTheme(hasWindow, storageFails, stored);
      storage := stored;
      rootDark := rootWasDark;
    }

    /** The effect after every change: the root is dark exactly for the dark
        theme, and the theme is written unless storage throws. */
    method ApplyTheme(storageFails: bool)
      modifies this
      ensures rootDark <==> theme == Dark
      ensures theme == old(theme)
      ensures storage == if storageFails then old(storage) else old(storage)[ThemeKey := theme]
    {
      if theme == Dark {
        rootDark := true;
      } else {
        rootDark := false;
      }
      if !storageFails {
        storage := storage[ThemeKey := theme];
      }
    }

    method ToggleTheme()
      modifies this
      ensures theme == Toggle(old(theme))
      ensures rootDark == old(rootDark) && storage == old(storage)
    {
      theme := Toggle(theme);
    }
  }

  /** A theme written by the effect is the theme read at the next start. */
  lemma StoredThemeReloads(stored: map<string, string>, theme: string)
    requires theme != ""
    ensures InitialTheme(true, false, stored[ThemeKey := theme]) == theme
  {
  }
}
