/** The colour-theme store (src/hooks/useTheme.tsx). The theme is kept as a
    plain string: the stored value is cast to the theme type unchecked, so
    anything found in storage becomes the theme. */
module Theme {
  import opened Wrappers

  const StorageKey: string := "theme-mode"

  /** The initial theme: a non-empty stored value as it is, otherwise
      "light" when the system prefers light, otherwise "dark"; without a
      window (server rendering) always "dark". */
  function InitialTheme(hasWindow: bool, stored: Option<string>, prefersLight: bool): (t: string)
    ensures t != ""
    ensures hasWindow && stored.Some? && stored.value != "" ==> t == stored.value
    ensures t != "dark" && t != "light" ==> hasWindow && stored == Some(t)
    ensures !hasWindow ==> t == "dark"
    ensures hasWindow && (stored.None? || stored.value == "") ==> (t == "light" <==> prefersLight)
  {
    if hasWindow && stored.Some? && stored.value != "" then stored.value
    else if hasWindow && prefersLight then "light"
    else "dark"
  }

  /** `prev === 'dark' ? 'light' : 'dark'`. */
  function Toggled(t: string): (r: string)
    ensures r == "dark" || r == "light"
    ensures r == "light" <==> t == "dark"
  {
    if t == "dark" then "light" else "dark"
  }

  /** Toggling twice restores a valid theme. */
  lemma ToggleTwiceRestores(t: string)
    requires t == "dark" || t == "light"
    ensures Toggled(Toggled(t)) == t
  {
  }

  /** For any other stored value it does not: "blue" toggles to "dark" and
      then to "light". */
  lemma ToggleTwiceFromInvalid()
    ensures Toggled("blue") == "dark"
    ensures Toggled(Toggled("blue")) == "light"
    ensures Toggled(Toggled("blue")) != "blue"
  {
  }

  /** The document classes the effect leaves for a theme: "dark" alone for
      the dark theme, "light" alone for anything else. */
  function ClassesFor(classes: set<string>, t: string): (r: set<string>)
    ensures ("dark" in r) <==> t == "dark"
    ensures ("light" in r) <==> t != "dark"
    ensures r - {"dark", "light"} == classes - {"dark", "light"}
  {
    if t == "dark" then classes + {"dark"} - {"light"}
    else classes - {"dark"} + {"light"}
  }

  class ThemeProvider {
    var theme: string
    /** The browser's local storage. */
    var storage: map<string, string>
    /** The class list of the document element. */
    var classes: set<string>

    /** The state the theme effect establishes: the theme is stored under
        "theme-mode" and exactly one of the two theme classes is set, the
        one matching the theme. */
    predicate Synced()
      reads this
    {
      StorageKey in storage && storage[StorageKey] == theme
      && ("dark" in classes <==> theme == "dark")
      && ("light" in classes <==> theme != "dark")
    }

    /** Mounting the provider: resolve the initial theme from storage and
        the system preference, then run the effect. Without a window (a
        server render) the effect does not run, so storage and classes are
        left as they were. */
    constructor (hasWindow: bool, storage0: map<string, string>, prefersLight: bool, classes0: set<string>)
      ensures theme == InitialTheme(hasWindow,
                                    if StorageKey in storage0 then Some(storage0[StorageKey]) else None,
                                    prefersLight)
      ensures hasWindow ==> storage == storage0[StorageKey := theme]
      ensures hasWindow ==> classes == ClassesFor(classes0, theme)
      ensures hasWindow ==> Synced()
      ensures !hasWindow ==> storage == storage0 && classes == classes0
    {
      var stored := if StorageKey in storage0 then Some(storage0[StorageKey]) else None;
      var t := InitialTheme(hasWindow, stored, prefersLight);
      theme := t;
      if hasWindow {
        storage := storage0[StorageKey := t];
        classes := ClassesFor(classes0, t);
      } else {
        storage := storage0;
        classes := classes0;
      }
    }

    /** The effect that runs after every theme change. */
    method SyncEffect()
      modifies this
      ensures theme == old(theme)
      ensures storage == old(storage)[StorageKey := theme]
      ensures classes == ClassesFor(old(classes), theme)
      ensures Synced()
    {
      storage := storage[StorageKey := theme];
      classes := ClassesFor(classes, theme);
    }

    /** `setTheme`, followed by the effect. */
    method SetTheme(t: string)
      requires t == "dark" || t == "light"
      modifies this
      ensures theme == t
      ensures storage == old(storage)[StorageKey := t]
      ensures classes == ClassesFor(old(classes), t)
      ensures Synced()
    {
      theme := t;
      SyncEffect();
    }

    /** `toggleTheme`, followed by the effect. */
    method ToggleTheme()
      modifies this
      ensures theme == Toggled(old(theme))
      ensures storage == old(storage)[StorageKey := theme]
      ensures classes == ClassesFor(old(classes), theme)
      ensures Synced()
    {
      theme := Toggled(theme);
      SyncEffect();
    }
  }

  /** Toggling twice from a synced valid theme restores the theme and the
      stored value. */
  method ToggleTwice(p: ThemeProvider)
    requires p.Synced() && (p.theme == "dark" || p.theme == "light")
    modifies p
    ensures p.theme == old(p.theme)
    ensures p.storage == old(p.storage)
    ensures p.Synced()
  {
    p.ToggleTheme();
    p.ToggleTheme();
    ToggleTwiceRestores(old(p.theme));
  }

  const MissingProvider: string := "useTheme must be used within ThemeProvider"

  /** `useTheme`: the provided store, or the error thrown outside a provider. */
  function UseTheme(context: Option<ThemeProvider>): (r: Result<ThemeProvider, string>)
    ensures r.Err? <==> context.None?
    ensures r.Err? ==> r.error == MissingProvider
  {
    RequireContext(context, MissingProvider)
  }
}
