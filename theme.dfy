/**
 * The colour theme: "dark" or "light", chosen once from the environment's
 * colour-scheme preference and flipped by the header's toggle button.
 */
module Theme {

  const DARK := "dark"
  const LIGHT := "light"

  predicate IsTheme(t: string)
  {
    t == DARK || t == LIGHT
  }

  /**
   * The theme the page starts with. `prefersDark` stands for the media query
   * `(prefers-color-scheme: dark)` matching; it is false where there is no
   * window or no `matchMedia`.
   */
  function InitialTheme(prefersDark: bool): (t: string)
    ensures IsTheme(t)
    ensures t == DARK <==> prefersDark
  {
    if prefersDark then DARK else LIGHT
  }

  /** The toggle's new theme: "light" from "dark", "dark" from anything else. */
  function Toggled(t: string): (r: string)
    ensures IsTheme(r) && r != t
    ensures t != DARK ==> r == DARK
  {
    if t == DARK then LIGHT else DARK
  }

  /** Toggling twice from either theme returns to it. */
  lemma ToggleInvolution(t: string)
    requires IsTheme(t)
    ensures Toggled(Toggled(t)) == t
  {
  }

  /** Whatever the value, one toggle makes it a theme and a second one flips it back. */
  lemma ToggleNormalizes(t: string)
    ensures IsTheme(Toggled(t))
    ensures Toggled(Toggled(Toggled(t))) == Toggled(t)
  {
    ToggleInvolution(Toggled(t));
  }
}
