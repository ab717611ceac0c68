/** The root component: the theme name and the theme object it supplies. */
module App {

  const InitialTheme: string := "dark"

  /** `toggleTheme`: "light" becomes "dark", anything else becomes "light". */
  function ToggleTheme(theme: string): (r: string)
    ensures theme == "light" ==> r == "dark"
    ensures theme != "light" ==> r == "light"
  {
    if theme == "light" then "dark" else "light"
  }

  datatype Palette = LightTheme | DarkTheme

  /** The `ThemeProvider` argument. */
  function PaletteFor(theme: string): (p: Palette)
    ensures p == LightTheme <==> theme == "light"
  {
    if theme == "light" then LightTheme else DarkTheme
  }

  /** Toggling twice is the identity on the two theme names; any other name
      ends up as "dark". */
  lemma ToggleTwice(theme: string)
    ensures theme == "light" || theme == "dark" ==> ToggleTheme(ToggleTheme(theme)) == theme
    ensures ToggleTheme(ToggleTheme(theme)) == "dark" || ToggleTheme(ToggleTheme(theme)) == "light"
    ensures theme != "light" ==> ToggleTheme(ToggleTheme(theme)) == "dark"
  {
  }

  /** Every toggle switches the supplied palette, whatever the current name. */
  lemma ToggleSwitchesPalette(theme: string)
    ensures PaletteFor(ToggleTheme(theme)) != PaletteFor(theme)
  {
  }

  /** The theme after `n` presses of the toggle. */
  function ThemeAfter(n: nat): string
  {
    if n == 0 then InitialTheme else ToggleTheme(ThemeAfter(n - 1))
  }

  /** Starting from "dark", the theme alternates: light after an odd number of
      presses, dark after an even number. */
  lemma {:induction false} ThemeAlternates(n: nat)
    ensures ThemeAfter(n) == if n % 2 == 0 then "dark" else "light"
    ensures PaletteFor(ThemeAfter(n)) == if n % 2 == 0 then DarkTheme else LightTheme
  {
    if n > 0 {
      ThemeAlternates(n - 1);
    }
  }
}
