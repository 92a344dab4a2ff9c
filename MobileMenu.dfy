/**
  The mobile navigation menu. Its state is the `active` class of the menu and
  of its toggle button, the inline `overflow` style of the page body, and the
  inline styles of the three bars of the hamburger icon. Four click handlers
  change it: the toggle button, a navigation link, any click outside both
  the menu and the button, and the in-page anchor handler that also closes an
  open menu before scrolling.
 */
module MobileMenu {

  /** The hamburger icon's three bars: no inline style yet, drawn as three
      bars (transforms `none`, middle bar opaque), or drawn as a cross. */
  datatype Icon = Unstyled | Bars | Cross

  datatype MenuState = MenuState(
    navActive: bool,      // the menu's `active` class
    toggleActive: bool,   // the toggle button's `active` class
    overflow: string,     // `document.body.style.overflow`
    icon: Icon)

  const Hidden: string := "hidden"

  /** The page as loaded: nothing active, no inline styles. */
  const Initial: MenuState := MenuState(false, false, "", Unstyled)

  /** The state every closing handler but the anchor one leaves behind. */
  const ClosedState: MenuState := MenuState(false, false, "", Bars)

  /** The two classes agree, and the page scroll is locked exactly while the
      menu is open. */
  predicate Consistent(s: MenuState) {
    s.navActive == s.toggleActive &&
    s.overflow == (if s.navActive then Hidden else "")
  }

  predicate IsOpen(s: MenuState) {
    s.navActive
  }

  /** The toggle button's click handler. */
  function Toggled(s: MenuState): (r: MenuState)
    ensures r.navActive == !s.navActive && r.toggleActive == !s.toggleActive
    ensures r.overflow == (if r.navActive then Hidden else "")
    ensures r.icon == (if r.navActive then Cross else Bars)
  {
    var open := !s.navActive;
    MenuState(open, !s.toggleActive,
      if open then Hidden else "",
      if open then Cross else Bars)
  }

  /** A navigation link's click handler. */
  function LinkClicked(s: MenuState): (r: MenuState)
    ensures !IsOpen(r) && Consistent(r)
  {
    ClosedState
  }

  /** The document's click handler, told whether the click landed inside the
      menu and inside the toggle button. */
  function DocumentClicked(s: MenuState, insideMenu: bool, insideToggle: bool): (r: MenuState)
    ensures !insideMenu && !insideToggle ==> !IsOpen(r) && Consistent(r)
    ensures insideMenu || insideToggle ==> r == s
  {
    if !insideMenu && !insideToggle then ClosedState else s
  }

  /** The in-page anchor handler's effect on the menu: for a link other than
      a bare `#` whose target exists, an open menu is closed; the icon's
      styles are not touched. */
  function AnchorClicked(s: MenuState, href: string, targetExists: bool): (r: MenuState)
    ensures r.icon == s.icon
    ensures Consistent(s) ==> Consistent(r)
    ensures href != "#" && targetExists ==> !IsOpen(r)
    ensures href == "#" || !targetExists || !IsOpen(s) ==> r == s
  {
    if href == "#" || !targetExists then s
    else if s.navActive then s.(navActive := false, toggleActive := false, overflow := "")
    else s
  }

  /** Every handler keeps the classes in step and the scroll lock in step
      with them. */
  lemma HandlersKeepConsistent(s: MenuState, insideMenu: bool, insideToggle: bool, href: string, targetExists: bool)
    requires Consistent(s)
    ensures Consistent(Toggled(s))
    ensures Consistent(LinkClicked(s))
    ensures Consistent(DocumentClicked(s, insideMenu, insideToggle))
    ensures Consistent(AnchorClicked(s, href, targetExists))
  {
  }

  /** A toggle opens a closed menu and locks scrolling, and a toggle
      closes an open menu and unlocks it. */
  lemma ToggleFlips(s: MenuState)
    ensures IsOpen(Toggled(s)) <==> !IsOpen(s)
    ensures Toggled(s).overflow == (if IsOpen(s) then "" else Hidden)
  {
  }

  /** Closing twice is closing once: the link and the outside-click handlers
      are idempotent, and the anchor handler too. */
  lemma ClosingIsIdempotent(s: MenuState, insideMenu: bool, insideToggle: bool, href: string, targetExists: bool)
    ensures LinkClicked(LinkClicked(s)) == LinkClicked(s)
    ensures DocumentClicked(DocumentClicked(s, insideMenu, insideToggle), insideMenu, insideToggle)
      == DocumentClicked(s, insideMenu, insideToggle)
    ensures AnchorClicked(AnchorClicked(s, href, targetExists), href, targetExists)
      == AnchorClicked(s, href, targetExists)
  {
  }

  /** Two toggles restore any state the handlers can have produced from one
      in which the icon has already been drawn. */
  lemma ToggleTwiceRestores(s: MenuState)
    requires Consistent(s) && s.icon == (if s.navActive then Cross else Bars)
    ensures Toggled(Toggled(s)) == s
  {
  }

  /** A closed menu stays closed under the anchor handler, and closing an
      open one through an anchor leaves the cross drawn, since that handler
      does not restyle the icon. */
  lemma AnchorCloseKeepsCross()
    ensures var open := Toggled(Initial);
      var after := AnchorClicked(open, "#about", true);
      !IsOpen(after) && after.icon == Cross
  {
  }

  /** Reachable states: what the handlers can produce from the page as
      loaded, for a sequence of clicks. */
  datatype Click =
    | ToggleClick
    | LinkClick
    | DocumentClick(insideMenu: bool, insideToggle: bool)
    | AnchorClick(href: string, targetExists: bool)

  function Apply(s: MenuState, c: Click): MenuState {
    match c
    case ToggleClick => Toggled(s)
    case LinkClick => LinkClicked(s)
    case DocumentClick(m, t) => DocumentClicked(s, m, t)
    case AnchorClick(h, e) => AnchorClicked(s, h, e)
  }

  function Replay(s: MenuState, clicks: seq<Click>): MenuState
    decreases |clicks|
  {
    if clicks == [] then s else Replay(Apply(s, clicks[0]), clicks[1..])
  }

  /** Whatever the clicks, the two classes never drift apart and the body
      scroll is locked exactly while the menu is open. */
  lemma {:induction false} ReplayKeepsConsistent(s: MenuState, clicks: seq<Click>)
    requires Consistent(s)
    ensures Consistent(Replay(s, clicks))
    decreases |clicks|
  {
    if clicks != [] {
      assert Consistent(Apply(s, clicks[0]));
      ReplayKeepsConsistent(Apply(s, clicks[0]), clicks[1..]);
    }
  }

  /** The live menu: the DOM state the handlers mutate. */
  class Menu {
    var navActive: bool
    var toggleActive: bool
    var bodyOverflow: string
    var icon: Icon

    function State(): MenuState
      reads this
    {
      MenuState(navActive, toggleActive, bodyOverflow, icon)
    }

    constructor ()
      ensures State() == Initial
    {
      navActive, toggleActive, bodyOverflow, icon := false, false, "", Unstyled;
    }

    /** The toggle button's click handler: both classes flip, then the icon
        and the body scroll follow the menu's new class. */
    method OnToggleClick()
      modifies this
      ensures State() == Toggled(old(State()))
    {
      navActive := !navActive;
      toggleActive := !toggleActive;
      if navActive {
        icon := Cross;
        bodyOverflow := Hidden;
      } else {
        icon := Bars;
        bodyOverflow := "";
      }
    }

    /** A navigation link's click handler. */
    method OnLinkClick()
      modifies this
      ensures State() == LinkClicked(old(State()))
    {
      navActive := false;
      toggleActive := false;
      icon := Bars;
      bodyOverflow := "";
    }

    /** The document's click handler. */
    method OnDocumentClick(insideMenu: bool, insideToggle: bool)
      modifies this
      ensures State() == DocumentClicked(old(State()), insideMenu, insideToggle)
    {
      if !insideMenu && !insideToggle {
        navActive := false;
        toggleActive := false;
        icon := Bars;
        bodyOverflow := "";
      }
    }

    /** The in-page anchor handler, as far as it concerns the menu. */
    method OnAnchorClick(href: string, targetExists: bool)
      modifies this
      ensures State() == AnchorClicked(old(State()), href, targetExists)
    {
      if href == "#" {
        return;
      }
      if targetExists {
        if navActive {
          navActive := false;
          toggleActive := false;
          bodyOverflow := "";
        }
      }
    }
  }

  /** Opening from the page as loaded and then following a navigation link
      leaves the menu closed and the page scrollable again. */
  method OpenThenFollowLink()
  {
    var m := new Menu();
    m.OnToggleClick();
    assert m.navActive && m.bodyOverflow == Hidden;
    m.OnLinkClick();
    assert !m.navActive && m.bodyOverflow == "";
  }
}
