/** The theme store: a light/dark preference kept in step across the DOM's
    "dark" class, the persisted "theme" entry of local storage and the store
    value. The environment is explicit: `browser` says whether a DOM and
    storage exist, `domDark` is the presence of the "dark" class, `stored` is
    the persisted entry (None when absent) and the system colour-scheme
    preference is passed in where it is consulted. */
module Theme {
  import opened Wrappers

  const Light: string := "light"
  const Dark: string := "dark"

  /** Resolution of the initial theme: outside a browser "light"; otherwise a
      non-empty stored entry as it is; otherwise "dark" exactly when the
      system prefers dark. */
  function InitialTheme(browser: bool, stored: Option<string>, prefersDark: bool): (theme: string)
    ensures !browser ==> theme == Light
    ensures browser && stored.Some? && stored.value != "" ==> theme == stored.value
    ensures browser && (stored.None? || stored.value == "") ==>
      (theme == Dark <==> prefersDark) && (theme == Light <==> !prefersDark)
  {
    if !browser then Light
    else if stored.Some? && stored.value != "" then stored.value
    else if prefersDark then Dark
    else Light
  }

  /** The resolved theme is never empty, and it is one of the two known
      values unless it was taken verbatim from storage. */
  lemma InitialThemeOrigin(browser: bool, stored: Option<string>, prefersDark: bool)
    ensures InitialTheme(browser, stored, prefersDark) != ""
    ensures InitialTheme(browser, stored, prefersDark) in {Light, Dark}
         || (browser && stored == Some(InitialTheme(browser, stored, prefersDark)))
  {
  }

  /** A snapshot of everything the store touches. */
  datatype ThemeState = ThemeState(browser: bool, domDark: bool, stored: Option<string>, value: string)

  /** DOM, storage and store value all agree on one theme. */
  predicate Consistent(s: ThemeState) {
    s.stored == Some(s.value) && s.domDark == (s.value == Dark)
  }

  /** The theme the DOM currently shows. */
  function DomTheme(s: ThemeState): (theme: string)
    ensures theme == Dark <==> s.domDark
    ensures !s.domDark ==> theme == Light
  {
    if s.domDark then Dark else Light
  }

  /** The state after `setTheme(theme)`. */
  function WithTheme(s: ThemeState, theme: string): (r: ThemeState)
    ensures r.browser == s.browser
    ensures s.browser ==> r.stored == Some(theme) && r.value == theme && Consistent(r)
  {
    if !s.browser then s
    else s.(domDark := theme == Dark, stored := Some(theme), value := theme)
  }

  /** The state after `toggle()`: the theme opposite to the DOM's, written
      everywhere. */
  function Toggled(s: ThemeState): (r: ThemeState)
    ensures r.browser == s.browser
    ensures s.browser ==> r.domDark == !s.domDark && Consistent(r)
  {
    if !s.browser then s
    else
      var newTheme := if DomTheme(s) == Dark then Light else Dark;
      s.(domDark := newTheme == Dark, stored := Some(newTheme), value := newTheme)
  }

  /** The state after `init()`: the resolved theme applied to the DOM and the
      store value; storage is only read. */
  function Initialized(s: ThemeState, prefersDark: bool): (r: ThemeState)
    ensures r.browser == s.browser && r.stored == s.stored
    ensures s.browser ==> r.value == InitialTheme(true, s.stored, prefersDark)
  {
    if !s.browser then s
    else
      var theme := InitialTheme(s.browser, s.stored, prefersDark);
      s.(domDark := theme == Dark, value := theme)
  }

  /** Outside a browser no operation changes anything. */
  lemma OutsideBrowserUnchanged(s: ThemeState, theme: string, prefersDark: bool)
    requires !s.browser
    ensures Toggled(s) == s && WithTheme(s, theme) == s && Initialized(s, prefersDark) == s
  {
  }

  /** Toggle flips the DOM flag, leaves DOM, storage and value consistent on
      one of the two known themes, and ignores the previous store value. */
  lemma ToggleFlips(s: ThemeState, otherValue: string)
    requires s.browser
    ensures Toggled(s).domDark == !s.domDark
    ensures Consistent(Toggled(s)) && Toggled(s).value in {Light, Dark}
    ensures Toggled(s.(value := otherValue)) == Toggled(s)
  {
  }

  /** Toggling twice restores the DOM flag and leaves the three places
      agreeing on the theme the DOM showed at the start. */
  lemma ToggleTwice(s: ThemeState)
    requires s.browser
    ensures Toggled(Toggled(s)).domDark == s.domDark
    ensures Consistent(Toggled(Toggled(s))) && Toggled(Toggled(s)).value == DomTheme(s)
    ensures Toggled(Toggled(s)) == WithTheme(s, DomTheme(s))
  {
  }

  /** setTheme writes its argument everywhere, whatever it is, and a second
      identical call changes nothing. */
  lemma SetThemeWrites(s: ThemeState, theme: string)
    requires s.browser
    ensures WithTheme(s, theme).domDark <==> theme == Dark
    ensures WithTheme(s, theme).stored == Some(theme) && WithTheme(s, theme).value == theme
    ensures Consistent(WithTheme(s, theme))
    ensures WithTheme(WithTheme(s, theme), theme) == WithTheme(s, theme)
  {
  }

  /** init applies the resolved theme to the DOM and the store value and
      leaves storage as it found it. */
  lemma InitApplies(s: ThemeState, prefersDark: bool)
    requires s.browser
    ensures Initialized(s, prefersDark).value == InitialTheme(true, s.stored, prefersDark)
    ensures Initialized(s, prefersDark).domDark <==> Initialized(s, prefersDark).value == Dark
    ensures Initialized(s, prefersDark).stored == s.stored
  {
  }

  class ThemeStore {
    var browser: bool
    var domDark: bool
    var stored: Option<string>
    var value: string

    function State(): ThemeState
      reads this
    {
      ThemeState(browser, domDark, stored, value)
    }

    /** The store value is seeded from the initial-theme resolution over the
        environment found at creation. */
    constructor (browser: bool, domDark: bool, stored: Option<string>, prefersDark: bool)
      ensures this.browser == browser && this.domDark == domDark && this.stored == stored
      ensures value == InitialTheme(browser, stored, prefersDark)
    {
      this.browser := browser;
      this.domDark := domDark;
      this.stored := stored;
      this.value := InitialTheme(browser, stored, prefersDark);
    }

    /** Flips the theme the DOM shows and writes the new one everywhere. */
    method Toggle()
      modifies this
      ensures State() == Toggled(old(State()))
      ensures browser == old(browser)
      ensures browser ==> domDark == !old(domDark) && stored == Some(value) && (domDark <==> value == Dark)
      ensures !browser ==> State() == old(State())
    {
      if !browser { return; }
      var currentTheme := if domDark then Dark else Light;
      var newTheme := if currentTheme == Dark then Light else Dark;
      if newTheme == Dark {
        domDark := true;
      } else {
        domDark := false;
      }
      stored := Some(newTheme);
      value := newTheme;
    }

    /** Writes `theme` to the DOM flag, storage and store value, without
        checking that it is a known theme. */
    method SetTheme(theme: string)
      modifies this
      ensures State() == WithTheme(old(State()), theme)
      ensures browser == old(browser)
      ensures browser ==> (domDark <==> theme == Dark) && stored == Some(theme) && value == theme
      ensures !browser ==> State() == old(State())
    {
      if !browser { return; }
      if theme == Dark {
        domDark := true;
      } else {
        domDark := false;
      }
      stored := Some(theme);
      value := theme;
    }

    /** Applies the resolved initial theme to the DOM flag and the store
        value; storage is left alone. */
    method Init(prefersDark: bool)
      modifies this
      ensures State() == Initialized(old(State()), prefersDark)
      ensures browser == old(browser) && stored == old(stored)
      ensures browser ==> value == InitialTheme(true, stored, prefersDark) && (domDark <==> value == Dark)
      ensures !browser ==> State() == old(State())
    {
      if !browser { return; }
      var theme := InitialTheme(browser, stored, prefersDark);
      if theme == Dark {
        domDark := true;
      } else {
        domDark := false;
      }
      value := theme;
    }
  }
}
