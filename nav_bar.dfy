/** The site navigation bar: which link is the current page, where the active pill sits,
    the hide-on-scroll-down behaviour, the focus trap of the mobile overlay menu and the
    rules that close that menu. */
module NavBar {

  import opened Wrappers

  datatype Link = Link(href: string, caption: string)

  /** `LINKS`, in display order. */
  const Links: seq<Link> := [
    Link("/", "Home"),
    Link("/projects", "Projects"),
    Link("/skills", "Skills"),
    Link("/about", "About"),
    Link("/contact", "Contact")
  ]

  /** `usePathname() || '/'`: a missing or empty pathname reads as the home page. */
  function CurrentPath(p: Option<string>): (r: string)
    ensures r != ""
    ensures (p == None || p == Some("")) <==> r == "/" && p != Some("/")
    ensures p.Some? && p.value != "" ==> r == p.value
  {
    match p
    case Some(s) => if s != "" then s else "/"
    case None => "/"
  }

  // ---------------------------------------------------------------- the active link

  /** `pathname === href || (href !== '/' && pathname.startsWith(href))`: an exact match,
      or for any link but home a raw string prefix. */
  predicate IsActive(pathname: string, href: string) {
    pathname == href || (href != "/" && href <= pathname)
  }

  /** Home is active only on exactly "/"; any other link on every path it is a string
      prefix of, whether or not a "/" follows. */
  lemma ActiveRule(pathname: string, href: string)
    ensures IsActive(pathname, "/") <==> pathname == "/"
    ensures href != "/" ==> (IsActive(pathname, href) <==> href <= pathname)
    ensures IsActive("/projectsX", "/projects") && !IsActive("/projects", "/")
  {
  }

  /** With these links at most one link is active on any path: the links other than home
      differ in their second character, and home is active only on "/". */
  lemma AtMostOneActive(pathname: string, i: nat, j: nat)
    requires i < |Links| && j < |Links|
    requires IsActive(pathname, Links[i].href) && IsActive(pathname, Links[j].href)
    ensures i == j
  {
    ActiveShape(pathname, i);
    ActiveShape(pathname, j);
    LinkSecondChars();
  }

  /** The links other than home start with "/" and a second character of their own:
      'p', 's', 'a' and 'c'. */
  lemma LinkSecondChars()
    ensures Links[0].href == "/"
    ensures forall i | 0 < i < |Links| :: |Links[i].href| >= 2
    ensures Links[1].href[1] == 'p' && Links[2].href[1] == 's'
    ensures Links[3].href[1] == 'a' && Links[4].href[1] == 'c'
  {
  }

  /** An active link shows in the path: home as the whole path, any other by the
      character after the leading "/", which it shares with the path. */
  lemma ActiveShape(pathname: string, i: nat)
    requires i < |Links| && IsActive(pathname, Links[i].href)
    ensures i == 0 <==> pathname == "/"
    ensures i > 0 ==> |pathname| >= 2 && pathname[1] == Links[i].href[1]
  {
    LinkSecondChars();
    var h := Links[i].href;
    if i > 0 {
      assert h <= pathname;
      assert pathname[1] == h[1];
    }
  }

  /** `positionPill`: the first link, in order, that is active; `None` collapses the
      pill. */
  method PositionPill(pathname: string, links: seq<Link>) returns (active: Option<nat>)
    ensures active == None <==> forall i | 0 <= i < |links| :: !IsActive(pathname, links[i].href)
    ensures active.Some? ==>
      && active.value < |links|
      && IsActive(pathname, links[active.value].href)
      && forall i | 0 <= i < active.value :: !IsActive(pathname, links[i].href)
  {
    active := None;
    for k := 0 to |links|
      invariant active == None
      invariant forall i | 0 <= i < k :: !IsActive(pathname, links[i].href)
    {
      if IsActive(pathname, links[k].href) {
        active := Some(k);
        break;
      }
    }
  }

  /** On the real links the pill sits under the one link drawn as the current page. */
  method PillMatchesHighlight(pathname: string, i: nat)
    requires i < |Links| && IsActive(pathname, Links[i].href)
  {
    var pill := PositionPill(pathname, Links);
    AtMostOneActive(pathname, pill.value, i);
    assert pill == Some(i);
  }

  // ---------------------------------------------------------------- hide on scroll

  /** What one animation frame of the scroll handler reads and writes. */
  datatype ScrollState = ScrollState(scrolled: bool, hidden: bool, lastY: int)

  /** One frame at scroll offset `y`: compact past 50, hide when moving down past 100,
      reveal when moving up, otherwise keep the current visibility. */
  function ScrollStep(s: ScrollState, y: int): (r: ScrollState)
    ensures r.scrolled <==> y > 50
    ensures r.lastY == y
    ensures y > s.lastY && y > 100 ==> r.hidden
    ensures y < s.lastY ==> !r.hidden
    ensures (y == s.lastY || (y > s.lastY && y <= 100)) ==> r.hidden == s.hidden
  {
    var hidden := if y > s.lastY && y > 100 then true else if y < s.lastY then false else s.hidden;
    ScrollState(y > 50, hidden, y)
  }

  /** The frames for a run of scroll offsets, in order. */
  function ScrollRun(s: ScrollState, ys: seq<int>): ScrollState
    decreases |ys|
  {
    if ys == [] then s else ScrollRun(ScrollStep(s, ys[0]), ys[1..])
  }

  /** A visible bar stays visible while the page never scrolls past 100. */
  lemma {:induction false} NeverHidesNearTop(s: ScrollState, ys: seq<int>)
    requires !s.hidden
    requires forall k | 0 <= k < |ys| :: ys[k] <= 100
    ensures !ScrollRun(s, ys).hidden
    decreases |ys|
  {
    if ys != [] {
      NeverHidesNearTop(ScrollStep(s, ys[0]), ys[1..]);
    }
  }

  /** After a run the offsets the bar last saw is the last one scrolled to. */
  lemma {:induction false} RunEndsAtLastOffset(s: ScrollState, ys: seq<int>)
    requires ys != []
    ensures ScrollRun(s, ys).lastY == ys[|ys| - 1]
    ensures ScrollRun(s, ys).scrolled <==> ys[|ys| - 1] > 50
    decreases |ys|
  {
    if |ys| > 1 {
      RunEndsAtLastOffset(ScrollStep(s, ys[0]), ys[1..]);
    }
  }

  // ---------------------------------------------------------------- the focus trap

  datatype KeyEvent = KeyEvent(key: string, shift: bool)

  /** What the handler does: close the menu, move focus to an element of the list
      (calling `preventDefault`), or leave the key to the browser. */
  datatype KeyOutcome = CloseOverlay | MoveFocus(index: nat) | Default

  /** The `keydown` handler of the open overlay. `count` is the number of focusable
      elements and `focus` the position of `document.activeElement` among them, if it is
      one of them. */
  function FocusTrapKey(count: nat, focus: Option<nat>, e: KeyEvent): (r: KeyOutcome)
    ensures e.key == "Escape" <==> r == CloseOverlay
    ensures r.MoveFocus? ==> r.index < count && e.key == "Tab"
    ensures e.key == "Tab" && count > 0 && !e.shift && focus == Some(count - 1) ==> r == MoveFocus(0)
    ensures e.key == "Tab" && count > 0 && e.shift && focus == Some(0) ==> r == MoveFocus(count - 1)
    ensures r.MoveFocus? ==> focus == Some(if e.shift then 0 else count - 1)
  {
    if e.key == "Escape" then CloseOverlay
    else if e.key == "Tab" && count > 0 then
      if e.shift then (if focus == Some(0) then MoveFocus(count - 1) else Default)
      else (if focus == Some(count - 1) then MoveFocus(0) else Default)
    else Default
  }

  /** Where focus lands after a Tab press: the handler's target, or the browser's next
      or previous element in the list when the handler leaves the key alone. */
  function FocusAfterTab(count: nat, i: nat, shift: bool): int
    requires i < count
  {
    match FocusTrapKey(count, Some(i), KeyEvent("Tab", shift))
    case MoveFocus(j) => j
    case _ => if shift then i - 1 else i + 1
  }

  /** Tab and Shift+Tab cycle through the overlay's focusable elements without leaving
      them. */
  lemma FocusStaysInside(count: nat, i: nat, shift: bool)
    requires i < count
    ensures 0 <= FocusAfterTab(count, i, shift) < count
  {
  }

  // ---------------------------------------------------------------- the component

  class NavBarState {
    var pathname: string
    var scrolled: bool
    var hidden: bool
    var menuOpen: bool
    var lastY: int
    var ticking: bool

    constructor (p: Option<string>)
      ensures pathname == CurrentPath(p)
      ensures !scrolled && !hidden && !menuOpen && lastY == 0 && !ticking
    {
      pathname := CurrentPath(p);
      scrolled := false;
      hidden := false;
      menuOpen := false;
      lastY := 0;
      ticking := false;
    }

    function Scroll(): ScrollState
      reads this
    {
      ScrollState(scrolled, hidden, lastY)
    }

    /** The `scroll` listener: requests one animation frame unless one is pending. */
    method OnScroll() returns (requested: bool)
      modifies this
      ensures requested <==> !old(ticking)
      ensures ticking
      ensures Scroll() == old(Scroll()) && pathname == old(pathname) && menuOpen == old(menuOpen)
    {
      requested := !ticking;
      ticking := true;
    }

    /** The requested frame, run at scroll offset `y`. */
    method Frame(y: int)
      modifies this
      ensures Scroll() == ScrollStep(old(Scroll()), y)
      ensures !ticking
      ensures pathname == old(pathname) && menuOpen == old(menuOpen)
    {
      scrolled := y > 50;
      if y > lastY && y > 100 {
        hidden := true;
      } else if y < lastY {
        hidden := false;
      }
      lastY := y;
      ticking := false;
    }

    /** The hamburger button. */
    method OpenMenu()
      modifies this
      ensures menuOpen
      ensures Scroll() == old(Scroll()) && ticking == old(ticking) && pathname == old(pathname)
    {
      menuOpen := true;
    }

    /** A click on an overlay link, the logo, the close button or the backdrop. */
    method CloseMenu()
      modifies this
      ensures !menuOpen
      ensures Scroll() == old(Scroll()) && ticking == old(ticking) && pathname == old(pathname)
    {
      menuOpen := false;
    }

    /** A route change: the effect on `[pathname]` closes the menu whenever the pathname
        differs from the previous one. */
    method Navigate(p: Option<string>)
      modifies this
      ensures pathname == CurrentPath(p)
      ensures CurrentPath(p) != old(pathname) ==> !menuOpen
      ensures CurrentPath(p) == old(pathname) ==> menuOpen == old(menuOpen)
      ensures Scroll() == old(Scroll()) && ticking == old(ticking)
    {
      var next := CurrentPath(p);
      if next != pathname {
        menuOpen := false;
      }
      pathname := next;
    }

    /** A key press while the overlay is open; with the menu closed no listener is
        installed and every key goes to the browser. */
    method OnKeyDown(count: nat, focus: Option<nat>, e: KeyEvent) returns (r: KeyOutcome)
      modifies this
      ensures r == (if old(menuOpen) then FocusTrapKey(count, focus, e) else Default)
      ensures menuOpen == (old(menuOpen) && r != CloseOverlay)
      ensures Scroll() == old(Scroll()) && ticking == old(ticking) && pathname == old(pathname)
    {
      if !menuOpen {
        return Default;
      }
      r := FocusTrapKey(count, focus, e);
      if r == CloseOverlay {
        menuOpen := false;
      }
    }
  }

  /** Opening the menu and following an overlay link to another page leaves it closed. */
  method OverlayNavigation(c: NavBarState, href: string)
    requires href != c.pathname && href != ""
    modifies c
  {
    c.OpenMenu();
    c.CloseMenu();
    c.Navigate(Some(href));
    assert !c.menuOpen && c.pathname == href;
  }
}
