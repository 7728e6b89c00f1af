/** The parts of the page the theme code reads and writes. */
module Browser {
  import opened Common

  /** `hasWindow` is false when the code runs outside a browser;
      `storage` is `localStorage`; `prefersDarkQuery` is the result of the
      `(prefers-color-scheme: dark)` media query, or `None` when `matchMedia` is
      missing; `darkClass` says whether the root element carries the `dark` class. */
  datatype Page = Page(hasWindow: bool, storage: map<string, string>, prefersDarkQuery: Option<bool>, darkClass: bool)

  const ThemeKey: string := "theme"

  /** `localStorage.getItem('theme')`: `null` when the key is absent. */
  function StoredTheme(p: Page): Option<string> {
    if ThemeKey in p.storage then Some(p.storage[ThemeKey]) else None
  }

  /** `window.matchMedia && window.matchMedia(...).matches`: false without `matchMedia`. */
  predicate PrefersDark(p: Page) {
    p.prefersDarkQuery == Some(true)
  }

  /** A fresh load of the page: the same storage, any system preference, no class set yet. */
  function Reload(p: Page, query: Option<bool>): Page {
    Page(true, p.storage, query, false)
  }
}

/** The validated theme loader (utils/theme.ts). */
module ThemeTs {
  import opened Common
  import opened Browser

  datatype Theme = Light | Dark

  function Name(t: Theme): string {
    match t
    case Light => "light"
    case Dark => "dark"
  }

  /** Accepts exactly the two theme names. */
  function Parse(s: string): (t: Option<Theme>)
    ensures t.Some? <==> s == "light" || s == "dark"
    ensures t.Some? ==> Name(t.value) == s
  {
    if s == "light" then Some(Light) else if s == "dark" then Some(Dark) else None
  }

  /** Every theme's name parses back to it. */
  lemma ParseName(t: Theme)
    ensures Parse(Name(t)) == Some(t)
  {
  }

  /** `loadInitialTheme`: light outside a browser; else a persisted "light" or
      "dark"; else dark exactly when the system prefers dark. */
  function LoadInitialTheme(p: Page): (t: Theme)
    ensures !p.hasWindow ==> t == Light
    ensures p.hasWindow && StoredTheme(p).Some? && Parse(StoredTheme(p).value).Some? ==>
              Name(t) == StoredTheme(p).value
    ensures p.hasWindow && (StoredTheme(p).None? || Parse(StoredTheme(p).value).None?) ==>
              (t == Dark <==> PrefersDark(p))
  {
    if !p.hasWindow then Light
    else
      var persisted := StoredTheme(p);
      if persisted.Some? && Parse(persisted.value).Some? then Parse(persisted.value).value
      else if PrefersDark(p) then Dark
      else Light
  }
}

/** The unvalidated theme helpers (src/utils/theme.js). */
module ThemeJs {
  import opened Common
  import opened Browser
  import ThemeTs

  /** `getInitialTheme`: light outside a browser; else any non-empty stored
      string as it is; else "dark" exactly when the system prefers dark. */
  function GetInitialTheme(p: Page): (name: string)
    ensures !p.hasWindow ==> name == "light"
    ensures p.hasWindow && Truthy(StoredTheme(p)) ==> name == StoredTheme(p).value
    ensures p.hasWindow && !Truthy(StoredTheme(p)) ==>
              (name == "dark" || name == "light") && (name == "dark" <==> PrefersDark(p))
    ensures name != ""
  {
    if !p.hasWindow then "light"
    else
      var stored := StoredTheme(p);
      if Truthy(stored) then stored.value
      else if PrefersDark(p) then "dark"
      else "light"
  }

  /** `applyTheme`: the `dark` class is set exactly for "dark", the name is
      persisted under "theme", and nothing else changes. It runs in a browser
      only (it reads `document`). */
  function ApplyTheme(p: Page, theme: string): (q: Page)
    requires p.hasWindow
    ensures q.darkClass <==> theme == "dark"
    ensures StoredTheme(q) == Some(theme)
    ensures q.storage.Keys == p.storage.Keys + {ThemeKey}
    ensures forall k :: k in p.storage && k != ThemeKey ==> q.storage[k] == p.storage[k]
    ensures q.hasWindow && q.prefersDarkQuery == p.prefersDarkQuery
  {
    p.(darkClass := theme == "dark", storage := p.storage[ThemeKey := theme])
  }

  /** Persist, then reload: a non-empty theme applied is the theme the next
      load starts with, whatever the system preference. */
  lemma ApplyThenLoad(p: Page, theme: string, query: Option<bool>)
    requires p.hasWindow && theme != ""
    ensures GetInitialTheme(Reload(ApplyTheme(p, theme), query)) == theme
  {
  }

  /** The two loaders agree exactly when nothing but "light", "dark" or the
      empty string is stored; any other stored string is returned by this one
      and ignored by the validated one. */
  lemma LoadersAgree(p: Page)
    requires p.hasWindow
    ensures ThemeTs.Name(ThemeTs.LoadInitialTheme(p)) == GetInitialTheme(p) <==>
              StoredTheme(p) in {None, Some(""), Some("light"), Some("dark")}
  {
  }
}

/** The theme state of the typed app shell (App.tsx). */
module App {
  import opened Common
  import opened Browser
  import opened ThemeTs
  import ThemeJs

  datatype AppState = AppState(theme: Theme, page: Page)

  /** The toggle handed to the navbar. */
  function Toggle(t: Theme): (u: Theme)
    ensures u != t
    ensures Name(u) == (if Name(t) == "dark" then "light" else "dark")
  {
    if t == Dark then Light else Dark
  }

  lemma ToggleInvolution(t: Theme)
    ensures Toggle(Toggle(t)) == t
  {
  }

  /** The effect run after each theme change: the same class update and write
      as `applyTheme`. */
  function SyncTheme(t: Theme, p: Page): Page
    requires p.hasWindow
  {
    ThemeJs.ApplyTheme(p, Name(t))
  }

  /** The page and the theme state agree. */
  predicate Synced(s: AppState) {
    && s.page.hasWindow
    && (s.page.darkClass <==> s.theme == Dark)
    && StoredTheme(s.page) == Some(Name(s.theme))
  }

  /** First render: the theme loaded from storage and preference, then the effect. */
  function Launch(p: Page): (s: AppState)
    requires p.hasWindow
    ensures Synced(s)
    ensures s.theme == LoadInitialTheme(p)
  {
    var t := LoadInitialTheme(p);
    AppState(t, SyncTheme(t, p))
  }

  /** A click on the theme button: the state flips and the effect runs again. */
  function Click(s: AppState): (r: AppState)
    requires s.page.hasWindow
    ensures Synced(r)
    ensures r.theme == Toggle(s.theme)
  {
    var t := Toggle(s.theme);
    AppState(t, SyncTheme(t, s.page))
  }

  /** `n` clicks: still in sync, and the theme is back where it was after an
      even number of them. */
  function Clicks(s: AppState, n: nat): (r: AppState)
    requires Synced(s)
    ensures Synced(r)
    ensures r.theme == (if n % 2 == 0 then s.theme else Toggle(s.theme))
    decreases n
  {
    if n == 0 then s else Clicks(Click(s), n - 1)
  }

  /** Whatever the clicks, a reload restores the theme last shown, even when
      the system preference has changed meanwhile. */
  lemma ReloadRestoresTheme(p: Page, n: nat, query: Option<bool>)
    requires p.hasWindow
    ensures var s := Clicks(Launch(p), n);
            LoadInitialTheme(Reload(s.page, query)) == s.theme
  {
    var s := Clicks(Launch(p), n);
    ParseName(s.theme);
  }

  /** No stored theme and a system preference for dark: the app starts dark. */
  lemma DarkSystemPreference(p: Page)
    requires p.hasWindow && ThemeKey !in p.storage && p.prefersDarkQuery == Some(true)
    ensures Launch(p).theme == Dark && Launch(p).page.darkClass
  {
  }
}
