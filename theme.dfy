/** The theme toggle (src/lib/theme.ts): the theme the toggle switches to. */
module Theme {
  import opened NoteTypes

  /** `getToggledTheme`: 'light' from 'dark', and 'dark' from anything else, including no theme
      and 'system'. */
  function ToggledTheme(current: Option<string>): (r: string)
    ensures r == "light" <==> current == Some("dark")
    ensures r == "light" || r == "dark"
  {
    if current == Some("dark") then "light" else "dark"
  }

  /** From 'light' or 'dark', toggling twice returns to the starting theme; from 'system' or no
      theme it ends on 'light'. */
  lemma ToggleTwice(t: Option<string>)
    ensures t == Some("light") || t == Some("dark") ==> ToggledTheme(Some(ToggledTheme(t))) == t.value
    ensures t == Some("system") || t.None? ==> ToggledTheme(Some(ToggledTheme(t))) == "light"
  {
  }
}
