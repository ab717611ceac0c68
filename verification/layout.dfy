/** The page frame: whether the mobile navigation drawer is open, and the
    dimming overlay shown behind it. */
module Layout {

  const InitiallyOpen: bool := false

  /** `toggleMobileNav`. */
  function ToggleNav(open: bool): (r: bool)
    ensures r != open
  {
    !open
  }

  /** The overlay is rendered exactly while the drawer is open. */
  predicate OverlayShown(open: bool)
  {
    open
  }

  /** A click on the overlay (which exists only while the drawer is open). */
  function ClickOverlay(open: bool): (r: bool)
    requires OverlayShown(open)
    ensures !r && !OverlayShown(r)
  {
    ToggleNav(open)
  }

  /** Two toggles cancel out; the overlay follows the drawer. */
  lemma ToggleNavTwice(open: bool)
    ensures ToggleNav(ToggleNav(open)) == open
    ensures OverlayShown(ToggleNav(InitiallyOpen))
    ensures !OverlayShown(InitiallyOpen)
  {
  }
}
