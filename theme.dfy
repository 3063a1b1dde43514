/**
 * `contexts/ThemeContext.tsx`: the chosen theme mode and the colour scheme
 * it resolves to. The system's scheme (`Appearance.getColorScheme()`) is a
 * parameter: `Some("dark")`, `Some("light")` or `None`.
 */
module Theme {
  import opened Wrappers

  datatype Mode = Light | Dark | Auto
  datatype Scheme = LightScheme | DarkScheme

  /** The mode's name as it is stored. */
  function ModeName(m: Mode): (r: string)
    ensures r in {"light", "dark", "auto"}
  {
    match m
    case Light => "light"
    case Dark => "dark"
    case Auto => "auto"
  }

  /** A saved preference is adopted only when it is one of the three names. */
  function ParseMode(saved: Option<string>): (r: Option<Mode>)
    ensures r.Some? <==> saved.Some? && saved.value in {"light", "dark", "auto"}
    ensures r.Some? ==> ModeName(r.value) == saved.value
  {
    if saved == Some("light") then Some(Light)
    else if saved == Some("dark") then Some(Dark)
    else if saved == Some("auto") then Some(Auto)
    else None
  }

  /** Storing a mode and reading it back gives the mode. */
  lemma ParseModeName(m: Mode)
    ensures ParseMode(Some(ModeName(m))) == Some(m)
  {
  }

  /** The scheme a mode stands for: itself, or in auto mode the system's
      scheme, where anything but dark counts as light. */
  function Resolve(mode: Mode, system: Option<string>): (r: Scheme)
    ensures mode == Light ==> r == LightScheme
    ensures mode == Dark ==> r == DarkScheme
    ensures mode == Auto ==> (r == DarkScheme <==> system == Some("dark"))
  {
    match mode
    case Light => LightScheme
    case Dark => DarkScheme
    case Auto => if system == Some("dark") then DarkScheme else LightScheme
  }

  /** The mode `toggleTheme` picks: the opposite of the scheme on screen. */
  function Toggled(scheme: Scheme): (r: Mode)
    ensures r != Auto
    ensures Resolve(r, None) != scheme
  {
    if scheme == LightScheme then Dark else Light
  }

  class ThemeState {
    var mode: Mode
    var scheme: Scheme

    /** An explicit mode always shows its own scheme. */
    predicate Valid()
      reads this
    {
      mode != Auto ==> scheme == Resolve(mode, None)
    }

    constructor()
      ensures Valid() && mode == Light && scheme == LightScheme
    {
      mode := Light;
      scheme := LightScheme;
    }

    /** Setting the mode; the effect on `[themeMode]` re-resolves the scheme
        only when the mode actually changed. */
    method SetThemeMode(m: Mode, system: Option<string>)
      requires Valid()
      modifies this
      ensures Valid() && mode == m
      ensures m != old(mode) ==> scheme == Resolve(m, system)
      ensures m == old(mode) ==> scheme == old(scheme)
    {
      if m != mode {
        mode := m;
        scheme := Resolve(m, system);
      }
    }

    /** The system listener, subscribed only in auto mode. */
    method SystemChanged(system: Option<string>)
      requires Valid()
      modifies this
      ensures Valid() && mode == old(mode)
      ensures old(mode) == Auto ==> scheme == Resolve(Auto, system)
      ensures old(mode) != Auto ==> scheme == old(scheme)
    {
      if mode == Auto {
        scheme := if system == Some("dark") then DarkScheme else LightScheme;
      }
    }

    /** `toggleTheme`: the mode becomes the opposite of the current scheme,
        so auto mode turns into an explicit mode. */
    method ToggleTheme(system: Option<string>)
      requires Valid()
      modifies this
      ensures Valid() && mode == Toggled(old(scheme)) && scheme != old(scheme)
    {
      var newMode := if scheme == LightScheme then Dark else Light;
      SetThemeMode(newMode, system);
    }

    /** `loadThemePreference`. */
    method LoadThemePreference(saved: Option<string>, system: Option<string>)
      requires Valid()
      modifies this
      ensures Valid()
      ensures ParseMode(saved).Some? ==> mode == ParseMode(saved).value
      ensures ParseMode(saved).None? ==> mode == old(mode) && scheme == old(scheme)
      ensures ParseMode(saved).Some? && ParseMode(saved).value != old(mode) ==> scheme == Resolve(mode, system)
      ensures ParseMode(saved).Some? && ParseMode(saved).value == old(mode) ==> scheme == old(scheme)
    {
      if saved.Some? && (saved.value == "light" || saved.value == "dark" || saved.value == "auto") {
        var m := if saved.value == "light" then Light else if saved.value == "dark" then Dark else Auto;
        SetThemeMode(m, system);
      }
    }
  }

  /** Toggling twice brings the scheme back, now under an explicit mode. */
  lemma ToggleTwiceRestoresScheme(scheme: Scheme, system: Option<string>)
    ensures Toggled(scheme) != Auto
    ensures Resolve(Toggled(Resolve(Toggled(scheme), system)), system) == scheme
  {
  }
}
