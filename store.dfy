/** The two global client stores: the auth slot and the theme flag.
    They are separate objects, so writing one never touches the other. */
module Store {
  import opened Outcomes

  /** `useAuthStore`: a single slot holding the current user, or none. */
  class AuthStore {
    var user: Option<User>

    constructor ()
      ensures user == None
    {
      user := None;
    }

    /** `setUser(u)`: unconditional overwrite, no validation. */
    method SetUser(u: Option<User>)
      modifies this
      ensures user == u
    {
      user := u;
    }
  }

  /** `useThemeStore`: the dark-mode flag (its persistence to browser
      storage is not modelled). */
  class ThemeStore {
    var isDark: bool

    constructor ()
      ensures !isDark
    {
      isDark := false;
    }

    /** `toggleTheme()`: negates the flag. */
    method ToggleTheme()
      modifies this
      ensures isDark == !old(isDark)
    {
      isDark := !isDark;
    }
  }

  /** Two toggles restore the theme, and leave the auth slot alone. */
  method ToggleTwiceRestores(auth: AuthStore, theme: ThemeStore)
    modifies theme
    ensures theme.isDark == old(theme.isDark)
    ensures auth.user == old(auth.user)
  {
    theme.ToggleTheme();
    theme.ToggleTheme();
  }

  /** Setting the user leaves the theme alone and forgets what the slot held. */
  method SetUserKeepsTheme(auth: AuthStore, theme: ThemeStore, u: Option<User>)
    modifies auth
    ensures auth.user == u
    ensures theme.isDark == old(theme.isDark)
  {
    auth.SetUser(u);
  }
}
