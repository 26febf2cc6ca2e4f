/**
 * The navigation bar: the viewport class derived from the window width, the
 * `scrolled` flag driven by the scroll position on desktop, the mobile menu's
 * open flag, the active-route test and the layout choices derived from them.
 */
module Navbar {

  datatype Viewport = Mobile | Tablet | Desktop

  /** Width breakpoints, in CSS pixels. */
  const TabletMinWidth: int := 768
  const DesktopMinWidth: int := 1024
  /** Scroll offset beyond which the desktop bar shrinks. */
  const ScrollThreshold: real := 800.0

  /** The resize handler's classification of `window.innerWidth`. */
  function ClassifyWidth(width: int): (v: Viewport)
    ensures v == Mobile <==> width < TabletMinWidth
    ensures v == Tablet <==> TabletMinWidth <= width < DesktopMinWidth
    ensures v == Desktop <==> DesktopMinWidth <= width
  {
    if width < 768 then Mobile
    else if width < 1024 then Tablet
    else Desktop
  }

  /** Orders the viewport classes from narrowest to widest. */
  function Rank(v: Viewport): nat
  {
    match v
    case Mobile => 0
    case Tablet => 1
    case Desktop => 2
  }

  /** A wider window never gets a narrower class. */
  lemma ClassifyMonotone(w1: int, w2: int)
    requires w1 <= w2
    ensures Rank(ClassifyWidth(w1)) <= Rank(ClassifyWidth(w2))
  {
  }

  /** The component's state fields. */
  datatype NavState = NavState(viewport: Viewport, scrolled: bool, menuOpen: bool)

  /** Initial `useState` values: desktop, not scrolled, menu closed. */
  const InitialNav := NavState(Desktop, false, false)

  /** The resize handler (also run whenever the effect runs): only the viewport changes. */
  function AfterCheckViewport(s: NavState, width: int): (r: NavState)
    ensures r.viewport == ClassifyWidth(width)
    ensures r.scrolled == s.scrolled && r.menuOpen == s.menuOpen
  {
    s.(viewport := ClassifyWidth(width))
  }

  /** Whether the scroll handler calls the `scrolled` setter. */
  function ScrollSetterCalled(s: NavState, scrollY: real): (called: bool)
    ensures called ==> s.viewport == Desktop
    ensures s.viewport == Desktop ==> (called <==> (scrollY > ScrollThreshold) != s.scrolled)
  {
    s.viewport == Desktop && (scrollY > 800.0) != s.scrolled
  }

  /** The scroll handler. */
  function AfterScroll(s: NavState, scrollY: real): (r: NavState)
    ensures r.viewport == s.viewport && r.menuOpen == s.menuOpen
    ensures s.viewport != Desktop ==> r.scrolled == s.scrolled
    ensures s.viewport == Desktop ==> r.scrolled == (scrollY > ScrollThreshold)
    ensures r != s <==> ScrollSetterCalled(s, scrollY)
  {
    if ScrollSetterCalled(s, scrollY) then s.(scrolled := scrollY > 800.0) else s
  }

  /** Handling the same scroll position twice changes nothing the second time. */
  lemma ScrollIdempotent(s: NavState, scrollY: real)
    ensures AfterScroll(AfterScroll(s, scrollY), scrollY) == AfterScroll(s, scrollY)
    ensures !ScrollSetterCalled(AfterScroll(s, scrollY), scrollY)
  {
  }

  /** The menu button. */
  function AfterToggleMenu(s: NavState): (r: NavState)
    ensures r.menuOpen == !s.menuOpen
    ensures r.viewport == s.viewport && r.scrolled == s.scrolled
  {
    s.(menuOpen := !s.menuOpen)
  }

  /** Toggling the menu twice restores it. */
  lemma ToggleMenuTwice(s: NavState)
    ensures AfterToggleMenu(AfterToggleMenu(s)) == s
  {
  }

  /** A click on any link of the mobile menu. */
  function AfterMenuLinkClick(s: NavState): (r: NavState)
    ensures !r.menuOpen
    ensures r.viewport == s.viewport && r.scrolled == s.scrolled
  {
    s.(menuOpen := false)
  }

  /** The routes of the mobile menu's links, in order; the centre pills show the first three. */
  const MenuRoutes: seq<string> := ["/", "/about", "/approach", "/contact"]
  const PillRoutes: seq<string> := MenuRoutes[..3]

  /** A link is highlighted when the current pathname is exactly its route. */
  function IsActive(pathname: string, path: string): (active: bool)
    ensures active <==> pathname == path
  {
    pathname == path
  }

  /** Positions of the highlighted links in a list of routes. */
  function ActiveLinks(pathname: string, routes: seq<string>): (active: set<nat>)
    ensures forall k: nat :: k in active <==> k < |routes| && IsActive(pathname, routes[k])
  {
    set k: nat | k < |routes| && IsActive(pathname, routes[k])
  }

  predicate Distinct(routes: seq<string>)
  {
    forall j, k :: 0 <= j < k < |routes| ==> routes[j] != routes[k]
  }

  /** With distinct routes, exactly the link whose route is the pathname is highlighted, if any. */
  lemma ActiveLinkUnique(pathname: string, routes: seq<string>)
    requires Distinct(routes)
    ensures pathname !in routes ==> ActiveLinks(pathname, routes) == {}
    ensures forall k :: 0 <= k < |routes| && routes[k] == pathname ==> ActiveLinks(pathname, routes) == {k}
    ensures |ActiveLinks(pathname, routes)| <= 1
  {
    if pathname in routes {
      var k :| 0 <= k < |routes| && routes[k] == pathname;
      assert ActiveLinks(pathname, routes) == {k};
    } else {
      assert ActiveLinks(pathname, routes) == {};
    }
  }

  /** The navbar's routes are distinct, so at most one link is highlighted in each list. */
  lemma AtMostOneActiveLink(pathname: string)
    ensures |ActiveLinks(pathname, MenuRoutes)| <= 1
    ensures |ActiveLinks(pathname, PillRoutes)| <= 1
  {
    assert Distinct(MenuRoutes);
    assert Distinct(PillRoutes);
    ActiveLinkUnique(pathname, MenuRoutes);
    ActiveLinkUnique(pathname, PillRoutes);
  }

  /** The bar's width class: 90vw, 50vw or 80vw. */
  datatype NavWidth = Width90vw | Width50vw | Width80vw

  function NavWidthFor(viewport: Viewport, scrolled: bool): (w: NavWidth)
    ensures w == Width90vw <==> viewport != Desktop
    ensures w == Width50vw <==> viewport == Desktop && scrolled
    ensures w == Width80vw <==> viewport == Desktop && !scrolled
  {
    if viewport != Desktop then Width90vw
    else if scrolled then Width50vw
    else Width80vw
  }

  /** The `scrolled` flag changes the width on desktop and nowhere else. */
  lemma NavWidthChoice(viewport: Viewport, s1: bool, s2: bool)
    ensures NavWidthFor(viewport, s1) != NavWidthFor(viewport, s2) <==> viewport == Desktop && s1 != s2
  {
  }

  /** The centre pills show off mobile; the menu button (and its menu) only on mobile. */
  function ShowCentrePills(viewport: Viewport): (show: bool)
    ensures show <==> viewport == Tablet || viewport == Desktop
  {
    viewport != Mobile
  }

  function ShowMenuButton(viewport: Viewport): (show: bool)
    ensures show <==> !ShowCentrePills(viewport)
  {
    viewport == Mobile
  }

  /** Exactly one of the pills and the menu button is shown, decided by the width alone. */
  lemma PillsOrMenuButton(width: int)
    ensures ShowCentrePills(ClassifyWidth(width)) != ShowMenuButton(ClassifyWidth(width))
    ensures ShowMenuButton(ClassifyWidth(width)) <==> width < TabletMinWidth
  {
  }

  /** The component's state, updated in place by its handlers. */
  class Navbar {
    var viewport: Viewport
    var scrolled: bool
    var menuOpen: bool

    function State(): NavState
      reads this
    {
      NavState(viewport, scrolled, menuOpen)
    }

    constructor ()
      ensures State() == InitialNav
    {
      viewport, scrolled, menuOpen := Desktop, false, false;
    }

    method CheckViewport(width: int)
      modifies this
      ensures State() == AfterCheckViewport(old(State()), width)
    {
      if width < 768 {
        viewport := Mobile;
      } else if width < 1024 {
        viewport := Tablet;
      } else {
        viewport := Desktop;
      }
    }

    /** Returns whether the `scrolled` setter was called. */
    method HandleScroll(scrollY: real) returns (setterCalled: bool)
      modifies this
      ensures setterCalled == ScrollSetterCalled(old(State()), scrollY)
      ensures State() == AfterScroll(old(State()), scrollY)
    {
      setterCalled := false;
      if viewport == Desktop {
        var isScrolled := scrollY > 800.0;
        if isScrolled != scrolled {
          scrolled := isScrolled;
          setterCalled := true;
        }
      }
    }

    method ToggleMenu()
      modifies this
      ensures State() == AfterToggleMenu(old(State()))
    {
      menuOpen := !menuOpen;
    }

    method ClickMenuLink()
      modifies this
      ensures State() == AfterMenuLinkClick(old(State()))
    {
      menuOpen := false;
    }
  }
}
