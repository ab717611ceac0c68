/** The navigation sidebar: its own collapsed flag, the mobile flag derived
    from the window width, the drawer state it shares with Layout, and which
    of its parts are visible. */
module Sidebar {
  import Layout
  import Seqs

  const MobileMaxWidth: int := 768

  predicate IsMobile(width: int)
  {
    width <= MobileMaxWidth
  }

  /** Sidebar state together with Layout's drawer flag. */
  datatype Shell = Shell(collapsed: bool, mobile: bool, navOpen: bool)

  /** Mounting at a window width. */
  function Mount(width: int): (s: Shell)
    ensures !s.collapsed && !s.navOpen
    ensures s.mobile <==> width <= 768
  {
    Shell(false, IsMobile(width), Layout.InitiallyOpen)
  }

  /** The collapse button. */
  function ClickCollapse(s: Shell): (r: Shell)
    ensures r.collapsed == !s.collapsed
    ensures r.mobile == s.mobile && r.navOpen == s.navOpen
  {
    s.(collapsed := !s.collapsed)
  }

  /** The resize listener: re-derive the mobile flag and, when the window has
      become desktop-sized with the drawer open, toggle the drawer once. */
  function Resize(s: Shell, width: int): (r: Shell)
    ensures r.mobile <==> width <= 768
    ensures r.navOpen <==> s.navOpen && width <= 768
    ensures r.collapsed == s.collapsed
  {
    var nowMobile := IsMobile(width);
    var open := if !nowMobile && s.navOpen then Layout.ToggleNav(s.navOpen) else s.navOpen;
    s.(mobile := nowMobile, navOpen := open)
  }

  /** The links can be reached on desktop, and on mobile only while the drawer
      is open: a closed drawer is off-screen with pointer events disabled. */
  predicate LinksClickable(s: Shell)
  {
    !s.mobile || s.navOpen
  }

  /** A navigation link: on mobile it toggles the drawer, which is open there,
      so it closes; on desktop it leaves the drawer alone. */
  function ClickLink(s: Shell): (r: Shell)
    requires LinksClickable(s)
    ensures r.navOpen == (if s.mobile then !s.navOpen else s.navOpen)
    ensures s.mobile ==> !r.navOpen
    ensures r.collapsed == s.collapsed && r.mobile == s.mobile
  {
    if s.mobile then s.(navOpen := Layout.ToggleNav(s.navOpen)) else s
  }

  /** The close button, rendered only while the drawer is open. */
  function ClickClose(s: Shell): (r: Shell)
    requires CloseButtonShown(s)
    ensures !r.navOpen && r.collapsed == s.collapsed && r.mobile == s.mobile
  {
    s.(navOpen := Layout.ToggleNav(s.navOpen))
  }

  /** The sidebar's own overlay: rendered on mobile, clickable only while the
      drawer is open, and a click toggles it closed. */
  predicate OverlayClickable(s: Shell)
  {
    s.mobile && s.navOpen
  }

  function ClickOverlay(s: Shell): (r: Shell)
    requires OverlayClickable(s)
    ensures !r.navOpen && r.collapsed == s.collapsed && r.mobile == s.mobile
  {
    s.(navOpen := Layout.ToggleNav(s.navOpen))
  }

  predicate TitleShown(s: Shell) { !s.collapsed || s.navOpen }
  predicate CollapseButtonShown(s: Shell) { !s.navOpen }
  predicate CloseButtonShown(s: Shell) { s.navOpen }
  predicate LabelsCollapsed(s: Shell) { s.collapsed && !s.navOpen }

  /** Exactly one of the two header buttons is shown, and the title is hidden
      exactly when the link labels are collapsed. */
  lemma HeaderParts(s: Shell)
    ensures CollapseButtonShown(s) != CloseButtonShown(s)
    ensures TitleShown(s) <==> !LabelsCollapsed(s)
    ensures s.navOpen ==> TitleShown(s) && !LabelsCollapsed(s)
  {
  }

  /** After any resize to a desktop width the drawer is closed, and a later
      link click leaves it closed. */
  lemma DesktopResizeCloses(s: Shell, width: int)
    requires width > 768
    ensures !Resize(s, width).navOpen && !Resize(s, width).mobile
    ensures ClickLink(Resize(s, width)) == Resize(s, width)
  {
  }

  /** The link paths of the main and secondary menus, in render order. */
  const NavPaths: seq<string> := ["/", "/tasks", "/inbox", "/calendar", "/team", "/notifications", "/settings"]

  /** A link is highlighted when the current path equals its own. */
  function ActiveLinks(pathname: string): nat
  {
    |Seqs.Filter(NavPaths, Seqs.Equals(pathname))|
  }

  /** At most one link is highlighted, and one is exactly when the current
      path is one of the seven. */
  lemma AtMostOneActiveLink(pathname: string)
    ensures ActiveLinks(pathname) <= 1
    ensures ActiveLinks(pathname) == 1 <==> pathname in NavPaths
  {
    Seqs.DistinctMatchesOnce(NavPaths, pathname);
  }
}
