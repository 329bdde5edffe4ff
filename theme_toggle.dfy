/**
 * Theme handling (components/theme-toggle.tsx): `applyTheme` rewrites the
 * document's `dark`/`light` class and records the requested mode in
 * storage; the toggle button flips between light and dark; on mount the
 * component adopts a stored theme or falls back to the system preference.
 *
 * The document element's class list, the storage entry under the theme
 * storage key and the colour-scheme media query are fields of `Page`.
 */
module Theme {

  import opened Wrappers

  datatype ThemeMode = Light | Dark | System

  const DarkClass: string := "dark"
  const LightClass: string := "light"

  /** The string a mode is written as, in storage and as a class name. */
  function ModeName(m: ThemeMode): string
  {
    match m
    case Light => "light"
    case Dark => "dark"
    case System => "system"
  }

  /** The class `applyTheme` adds: the media query decides for `system`, otherwise the mode's own name. */
  function ThemeClass(m: ThemeMode, prefersDark: bool): (c: string)
    ensures c == DarkClass || c == LightClass
    ensures m != System ==> c == ModeName(m)
    ensures m == System ==> (c == DarkClass <==> prefersDark)
  {
    match m
    case System => if prefersDark then DarkClass else LightClass
    case _ => ModeName(m)
  }

  /** The class set after `applyTheme`: both theme classes removed, then one added. */
  function ClassesAfterApply(classes: set<string>, m: ThemeMode, prefersDark: bool): set<string>
  {
    (classes - {DarkClass, LightClass}) + {ThemeClass(m, prefersDark)}
  }

  predicate HasOneThemeClass(classes: set<string>)
  {
    (DarkClass in classes) != (LightClass in classes)
  }

  /**
   * Whatever the class set held before, `applyTheme` leaves exactly one of
   * `dark` / `light` in it — the one for the mode — and every other class as it was.
   */
  lemma ApplyLeavesOneThemeClass(classes: set<string>, m: ThemeMode, prefersDark: bool)
    ensures var after := ClassesAfterApply(classes, m, prefersDark);
      && HasOneThemeClass(after)
      && ThemeClass(m, prefersDark) in after
      && forall c :: c != DarkClass && c != LightClass ==> (c in after <==> c in classes)
  {
    assert DarkClass != LightClass;
  }

  /** Applying a theme twice is the same as applying it once. */
  lemma ApplyIdempotent(classes: set<string>, m: ThemeMode, prefersDark: bool)
    ensures ClassesAfterApply(ClassesAfterApply(classes, m, prefersDark), m, prefersDark)
            == ClassesAfterApply(classes, m, prefersDark)
  {
  }

  /** `handleThemeChange`'s choice: dark after light, light after anything else (including no theme yet). */
  function NextTheme(current: Option<string>): (m: ThemeMode)
    ensures m != System
    ensures m == Dark <==> current == Some(ModeName(Light))
  {
    if current == Some("light") then Dark else Light
  }

  /** Toggling alternates: the theme chosen after a toggle is never the one chosen before it. */
  lemma ToggleAlternates(current: Option<string>)
    ensures NextTheme(Some(ModeName(NextTheme(current)))) != NextTheme(current)
    ensures NextTheme(Some(ModeName(NextTheme(Some(ModeName(NextTheme(current))))))) == NextTheme(current)
  {
  }

  /** The theme the mount effect adopts: a stored (non-empty) value, else the system preference. */
  function InitialTheme(stored: Option<string>, prefersDark: bool): (theme: string)
    ensures stored.Some? && stored.value != "" ==> theme == stored.value
    ensures (stored.None? || stored.value == "") ==> theme == ThemeClass(System, prefersDark)
  {
    if stored.Some? && stored.value != "" then stored.value
    else if prefersDark then ModeName(Dark) else ModeName(Light)
  }

  /** The document element, the theme's storage entry and the `prefers-color-scheme` media query. */
  class Page {
    var classes: set<string>
    var storedTheme: Option<string>
    var prefersDark: bool

    constructor (classes: set<string>, storedTheme: Option<string>, prefersDark: bool)
      ensures this.classes == classes && this.storedTheme == storedTheme && this.prefersDark == prefersDark
    {
      this.classes := classes;
      this.storedTheme := storedTheme;
      this.prefersDark := prefersDark;
    }
  }

  /** `applyTheme`. */
  method ApplyTheme(page: Page, m: ThemeMode)
    modifies page`classes, page`storedTheme
    ensures page.classes == ClassesAfterApply(old(page.classes), m, page.prefersDark)
    ensures page.storedTheme == Some(ModeName(m))
  {
    page.classes := page.classes - {DarkClass, LightClass};
    page.storedTheme := Some(ModeName(m));
    if m == System {
      if page.prefersDark {
        page.classes := page.classes + {DarkClass};
      } else {
        page.classes := page.classes + {LightClass};
      }
    } else {
      page.classes := page.classes + {ModeName(m)};
    }
  }

  /** The toggle button; `theme` is its state (None until the mount effect has run). */
  class ThemeToggle {
    const page: Page
    var theme: Option<string>

    /** The state agrees with what storage records. */
    ghost predicate Synced()
      reads this, page
    {
      theme.Some? && page.storedTheme == theme
    }

    constructor (page: Page)
      ensures this.page == page && theme.None?
    {
      this.page := page;
      theme := None;
    }

    /**
     * The mount effect. A stored theme is adopted without touching the
     * document; otherwise the system's dark/light is adopted and applied,
     * which also stores it.
     */
    method Mount()
      modifies this`theme, page`classes, page`storedTheme
      ensures theme == Some(InitialTheme(old(page.storedTheme), page.prefersDark))
      ensures old(page.storedTheme).Some? && old(page.storedTheme).value != "" ==>
                page.classes == old(page.classes) && page.storedTheme == old(page.storedTheme)
      ensures old(page.storedTheme).None? || old(page.storedTheme).value == "" ==>
                page.classes == ClassesAfterApply(old(page.classes), System, page.prefersDark)
      ensures Synced()
    {
      var stored := page.storedTheme;
      if stored.Some? && stored.value != "" {
        theme := stored;
      } else {
        var systemTheme := if page.prefersDark then Dark else Light;
        theme := Some(ModeName(systemTheme));
        ApplyTheme(page, systemTheme);
      }
    }

    /** `handleThemeChange`: apply the next theme and record the same one as state. */
    method HandleThemeChange()
      modifies this`theme, page`classes, page`storedTheme
      ensures var m := NextTheme(old(theme));
        && theme == Some(ModeName(m))
        && page.classes == ClassesAfterApply(old(page.classes), m, page.prefersDark)
      ensures Synced() && HasOneThemeClass(page.classes)
    {
      var newTheme := if theme == Some("light") then Dark else Light;
      ApplyTheme(page, newTheme);
      theme := Some(ModeName(newTheme));
      ApplyLeavesOneThemeClass(old(page.classes), newTheme, page.prefersDark);
    }
  }
}
