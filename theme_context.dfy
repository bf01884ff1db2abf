/**
 * frontend/src/ThemeContext.jsx: the light/dark mode, read from and saved to
 * localStorage, and the hook that hands it to components.
 */
module ThemeContext {
  import opened Wrappers
  import opened BrowserStorage

  const ThemeKey := "dakdash-theme"
  const Light := "light"
  const Dark := "dark"
  const OutsideProvider := "useThemeMode must be used within ThemeProvider"

  /** The initial mode: the saved text unless it is missing or empty, else light. */
  function SavedMode(saved: Option<Stored>): (m: string)
    ensures m != ""
    ensures saved.Some? && TextOf(saved.value) != "" ==> m == TextOf(saved.value)
    ensures saved.None? ==> m == Light
  {
    match saved
    case Some(v) => if TextOf(v) != "" then TextOf(v) else Light
    case None => Light
  }

  /** `toggleTheme`'s update: light becomes dark, anything else becomes light. */
  function NextMode(mode: string): (m: string)
    ensures m == Light || m == Dark
    ensures m == Dark <==> mode == Light
  {
    if mode == Light then Dark else Light
  }

  datatype Palette = LightTheme | DarkTheme

  /** The MUI theme in use: the dark one only for exactly "dark". */
  function CurrentTheme(mode: string): (p: Palette)
    ensures p == DarkTheme <==> mode == Dark
  {
    if mode == Dark then DarkTheme else LightTheme
  }

  class ThemeProvider {
    var mode: string
    const store: LocalStorage

    /** The saved mode has been written back: what the effect on `mode` keeps true. */
    predicate Persisted()
      reads this, store
    {
      ThemeKey in store.entries && store.entries[ThemeKey] == Text(mode)
    }

    /**
     * Mounting: the mode from the saved value, then the effect that saves it.
     * Both storage calls run outside any `try`, so storage must work.
     */
    constructor(store: LocalStorage)
      requires store.accessible && store.writable
      modifies store
      ensures this.store == store
      ensures old(store.GetItem(ThemeKey)).Success? && mode == SavedMode(old(store.GetItem(ThemeKey)).value)
      ensures store.entries == old(store.entries)[ThemeKey := Text(mode)]
      ensures store.accessible && store.writable
      ensures Persisted()
    {
      var saved := store.GetItem(ThemeKey);
      mode := SavedMode(saved.value);
      this.store := store;
      new;
      var _ := store.SetItem(ThemeKey, Text(mode));
    }

    /** `toggleTheme` and the effect it triggers. */
    method Toggle()
      requires store.accessible && store.writable
      modifies this, store
      ensures mode == NextMode(old(mode))
      ensures store.entries == old(store.entries)[ThemeKey := Text(mode)]
      ensures store.accessible && store.writable
      ensures Persisted()
    {
      mode := NextMode(mode);
      var _ := store.SetItem(ThemeKey, Text(mode));
    }
  }

  /** `useThemeMode`: the provider's value, or the error thrown outside one. */
  function UseThemeMode(context: Option<ThemeProvider>): (r: Result<ThemeProvider, string>)
    ensures r.Success? <==> context.Some?
    ensures r.Success? ==> r.value == context.value
    ensures r.Failure? ==> r.error == OutsideProvider
  {
    match context
    case Some(p) => Success(p)
    case None => Failure(OutsideProvider)
  }

  /** Toggling twice returns to light or dark; any other saved value is toggled to light first. */
  lemma ToggleTwice(mode: string)
    ensures mode == Light || mode == Dark ==> NextMode(NextMode(mode)) == mode
    ensures mode != Light && mode != Dark ==> NextMode(mode) == Light && CurrentTheme(mode) == LightTheme
  {
  }

  /** A saved mode survives a reload: what the provider stores is what it reads back. */
  lemma ModeSurvivesReload(mode: string)
    requires mode != ""
    ensures SavedMode(Some(Text(mode))) == mode
  {
  }

  /** A toggled mode read back after a reload renders the toggled theme. */
  lemma ToggleThenReload(mode: string)
    ensures CurrentTheme(SavedMode(Some(Text(NextMode(mode))))) == (if mode == Light then DarkTheme else LightTheme)
  {
  }
}
