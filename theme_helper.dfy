/**
 * ThemeHelper: the theme choice kept as an int in the `app_preferences` store under
 * `theme_mode`, its display name, and the night mode handed to AppCompatDelegate.
 */
module ThemeHelper {

  const ThemeLight: int := 0
  const ThemeDark: int := 1
  const ThemeAuto: int := 2

  /** AppCompatDelegate's night modes. */
  const ModeNightNo: int := 1
  const ModeNightYes: int := 2
  const ModeNightFollowSystem: int := -1

  const KeyThemeMode: string := "theme_mode"

  /** The `app_preferences` store: every helper built over the same context sees the same store. */
  class Preferences {
    var ints: map<string, int>

    constructor ()
      ensures ints == map[]
    {
      ints := map[];
    }

    /** `getInt(key, defValue)`. */
    function GetInt(key: string, defValue: int): (v: int)
      reads this
      ensures key in ints ==> v == ints[key]
      ensures key !in ints ==> v == defValue
    {
      if key in ints then ints[key] else defValue
    }

    /** `edit().putInt(key, value).apply()`: no validation of the value. */
    method PutInt(key: string, value: int)
      modifies this
      ensures ints == old(ints)[key := value]
    {
      ints := ints[key := value];
    }
  }

  /** The process-wide default night mode that `AppCompatDelegate.setDefaultNightMode` sets. */
  class NightModeSetting {
    var defaultNightMode: int

    constructor (mode: int)
      ensures defaultNightMode == mode
    {
      defaultNightMode := mode;
    }

    method SetDefaultNightMode(mode: int)
      modifies this
      ensures defaultNightMode == mode
    {
      defaultNightMode := mode;
    }
  }

  /** The `when` over the saved theme in `applyTheme` and `applyThemeStatic`. */
  function NightMode(savedTheme: int): (mode: int)
    ensures mode == ModeNightNo <==> savedTheme == ThemeLight
    ensures mode == ModeNightYes <==> savedTheme == ThemeDark
    ensures mode == ModeNightFollowSystem <==> savedTheme != ThemeLight && savedTheme != ThemeDark
  {
    if savedTheme == ThemeLight then ModeNightNo
    else if savedTheme == ThemeDark then ModeNightYes
    else ModeNightFollowSystem
  }

  /** The `when` in `getCurrentThemeName`. */
  function ThemeName(savedTheme: int): (name: string)
    ensures name == "Claro" <==> savedTheme == ThemeLight
    ensures name == "Oscuro" <==> savedTheme == ThemeDark
    ensures name == "Automático" <==> savedTheme != ThemeLight && savedTheme != ThemeDark
  {
    if savedTheme == ThemeLight then "Claro"
    else if savedTheme == ThemeDark then "Oscuro"
    else "Automático"
  }

  /** `applyThemeStatic(context)`: reads the store directly, without a helper instance. */
  method ApplyThemeStatic(prefs: Preferences, delegate: NightModeSetting)
    modifies delegate
    ensures delegate.defaultNightMode == NightMode(prefs.GetInt(KeyThemeMode, ThemeAuto))
    ensures KeyThemeMode !in prefs.ints ==> delegate.defaultNightMode == ModeNightFollowSystem
  {
    var savedTheme := prefs.GetInt(KeyThemeMode, ThemeAuto);
    var nightMode := if savedTheme == ThemeLight then ModeNightNo
                     else if savedTheme == ThemeDark then ModeNightYes
                     else ModeNightFollowSystem;
    delegate.SetDefaultNightMode(nightMode);
  }

  class ThemeHelper {
    const sharedPreferences: Preferences

    constructor (prefs: Preferences)
      ensures sharedPreferences == prefs
    {
      sharedPreferences := prefs;
    }

    /** `getSavedTheme()`: the stored value as it is, `ThemeAuto` when nothing is stored. */
    function GetSavedTheme(): (theme: int)
      reads this, sharedPreferences
      ensures KeyThemeMode !in sharedPreferences.ints ==> theme == ThemeAuto
      ensures KeyThemeMode in sharedPreferences.ints ==> theme == sharedPreferences.ints[KeyThemeMode]
    {
      sharedPreferences.GetInt(KeyThemeMode, ThemeAuto)
    }

    /** `getCurrentThemeName()`. */
    function GetCurrentThemeName(): (name: string)
      reads this, sharedPreferences
      ensures KeyThemeMode !in sharedPreferences.ints ==> name == "Automático"
      ensures name == ThemeName(GetSavedTheme())
    {
      var saved := GetSavedTheme();
      if saved == ThemeLight then "Claro" else if saved == ThemeDark then "Oscuro" else "Automático"
    }

    /** `applyTheme()`: the same mapping as `applyThemeStatic`. */
    method ApplyTheme(delegate: NightModeSetting)
      modifies delegate
      ensures delegate.defaultNightMode == NightMode(GetSavedTheme())
    {
      var savedTheme := GetSavedTheme();
      var nightMode := if savedTheme == ThemeLight then ModeNightNo
                       else if savedTheme == ThemeDark then ModeNightYes
                       else ModeNightFollowSystem;
      delegate.SetDefaultNightMode(nightMode);
    }

    /** `saveAndApplyTheme(themeMode)`: the value is stored unvalidated and applied at once. */
    method SaveAndApplyTheme(themeMode: int, delegate: NightModeSetting)
      modifies sharedPreferences, delegate
      ensures sharedPreferences.ints == old(sharedPreferences.ints)[KeyThemeMode := themeMode]
      ensures GetSavedTheme() == themeMode
      ensures delegate.defaultNightMode == NightMode(themeMode)
    {
      sharedPreferences.PutInt(KeyThemeMode, themeMode);
      ApplyTheme(delegate);
    }
  }

  /**
   * Two saves through one helper, then a fresh helper over the same store: the fresh helper
   * reads the last value written, and applying the static mapping agrees with it.
   */
  method LastWriteWins(prefs: Preferences, delegate: NightModeSetting, first: int, second: int)
    returns (seen: int, name: string)
    modifies prefs, delegate
    ensures seen == second
    ensures name == ThemeName(second)
    ensures delegate.defaultNightMode == NightMode(second)
  {
    var helper := new ThemeHelper(prefs);
    helper.SaveAndApplyTheme(first, delegate);
    helper.SaveAndApplyTheme(second, delegate);
    var again := new ThemeHelper(prefs);
    seen := again.GetSavedTheme();
    name := again.GetCurrentThemeName();
    ApplyThemeStatic(prefs, delegate);
  }
}
