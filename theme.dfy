/** Dark-mode toggle (js/main.js, section 1): the `dark-mode` class on the
    page body and the "theme" entry of local storage. */
module Theme {
  import opened Common

  /** The body's `dark-mode` class and the stored "theme" value (None when
      the key is absent). */
  datatype ThemeState = ThemeState(dark: bool, stored: Option<string>)

  /** The value the toggle writes for a display mode. */
  function ThemeName(dark: bool): (name: string)
    ensures name == "dark" <==> dark
    ensures name == "dark" || name == "light"
  {
    if dark then "dark" else "light"
  }

  /** The stored value agrees with the display mode. */
  predicate Consistent(s: ThemeState)
  {
    s.stored == Some(ThemeName(s.dark))
  }

  /** Page load: the class is added only for a saved value of exactly
      "dark"; storage is read and left as it is. */
  function Startup(saved: Option<string>): (s: ThemeState)
    ensures s.dark <==> saved == Some("dark")
    ensures s.stored == saved
    ensures saved == Some("dark") || saved == Some("light") ==> Consistent(s)
  {
    ThemeState(saved == Some("dark"), saved)
  }

  /** One click on the toggle: flip the class, then store the new mode. */
  function Toggled(s: ThemeState): (r: ThemeState)
    ensures r.dark == !s.dark
    ensures r.stored == Some("dark") <==> r.dark
    ensures Consistent(r)
  {
    var dark := !s.dark;
    ThemeState(dark, Some(ThemeName(dark)))
  }

  /** n clicks on the toggle. */
  function Toggles(s: ThemeState, n: nat): ThemeState
  {
    if n == 0 then s else Toggled(Toggles(s, n - 1))
  }

  /** Two clicks restore the display mode and leave the stored value naming
      it: the stored value comes back when it already agreed with the mode,
      and a missing or foreign one becomes "light" or "dark". */
  lemma TwoTogglesRestore(s: ThemeState)
    ensures Toggles(s, 2) == ThemeState(s.dark, Some(ThemeName(s.dark)))
    ensures Consistent(s) ==> Toggles(s, 2) == s
  {
    assert Toggles(s, 2) == Toggled(Toggled(s)) by {
      assert Toggles(s, 1) == Toggled(s);
    }
  }

  /** After n clicks the mode has flipped n times, and (for n > 0) the stored
      value names the current mode. */
  lemma {:induction false} ToggleParity(s: ThemeState, n: nat)
    ensures Toggles(s, n).dark == (s.dark != (n % 2 == 1))
    ensures n > 0 ==> Toggles(s, n).stored == Some(ThemeName(Toggles(s, n).dark))
  {
    if n > 0 {
      ToggleParity(s, n - 1);
    }
  }

  /** Reloading after any number of clicks (at least one) reproduces exactly
      the display state and the stored value the session ended with. */
  lemma {:induction false} ReloadRestores(s: ThemeState, n: nat)
    requires n > 0
    ensures Startup(Toggles(s, n).stored) == Toggles(s, n)
  {
    ToggleParity(s, n);
  }

  /** A visit that starts from the saved value, clicked any number of times
      (none included), is reproduced exactly by the next page load. */
  lemma {:induction false} ReloadAfterVisitRestores(saved: Option<string>, n: nat)
    ensures Startup(Toggles(Startup(saved), n).stored) == Toggles(Startup(saved), n)
  {
    if n > 0 {
      ReloadRestores(Startup(saved), n);
    }
  }

  /** The page body together with the storage slot. */
  class ThemeController {
    var darkMode: bool
    var stored: Option<string>

    function State(): ThemeState
      reads this
    {
      ThemeState(darkMode, stored)
    }

    /** The page loads with the body class absent and reads the saved value. */
    constructor (saved: Option<string>)
      ensures State() == Startup(saved)
    {
      darkMode := false;
      stored := saved;
      if saved == Some("dark") {
        darkMode := true;
      }
    }

    method Toggle()
      modifies this
      ensures State() == Toggled(old(State()))
    {
      darkMode := !darkMode;
      var theme := ThemeName(darkMode);
      stored := Some(theme);
    }
  }
}
