/** The site header: three UI flags updated by scroll and pointer events,
    the page-wide body scroll lock kept in step with the mobile menu, and
    the header chrome derived from the flags. */
module Header {
  import opened Js

  /** Scroll offset (in pixels) past which the header turns opaque. */
  const ScrollThreshold: real := 60.0

  const OverflowLocked: string := "hidden"
  const OverflowDefault: string := ""

  datatype NavChild = NavChild(labelText: string, href: string)

  datatype NavLink = NavLink(
    labelText: string,
    href: string,
    highlight: Option<bool>,
    children: Option<seq<NavChild>>)

  /** How a top-level link is drawn in the desktop navigation. */
  datatype LinkKind = Dropdown | Highlight | Plain

  /** A link that has a `children` array (even an empty one, which is
      truthy) is a dropdown; otherwise `highlight: true` makes it the
      outlined call-to-action; everything else is a plain link. */
  function RenderKind(link: NavLink): (k: LinkKind)
    ensures k == Dropdown <==> link.children.Some?
    ensures k == Highlight <==> link.children.None? && TruthyBool(link.highlight)
    ensures k == Plain <==> link.children.None? && !TruthyBool(link.highlight)
  {
    if link.children.Some? then Dropdown
    else if TruthyBool(link.highlight) then Highlight
    else Plain
  }

  /** `children` takes precedence over `highlight`. */
  lemma ChildrenWinOverHighlight(link: NavLink)
    requires link.children.Some? && link.highlight == Some(true)
    ensures RenderKind(link) == Dropdown
  {
  }

  /** The dropdown panel of a desktop link is drawn when the link is a
      dropdown and the one shared `dropdownOpen` flag is set. */
  function DropdownPanelShown(link: NavLink, dropdownOpen: bool): (shown: bool)
    ensures shown <==> RenderKind(link) == Dropdown && dropdownOpen
  {
    link.children.Some? && dropdownOpen
  }

  /** Because the flag is shared, hovering one dropdown opens the panels of
      every dropdown link at once. */
  lemma DropdownFlagIsShared(a: NavLink, b: NavLink)
    requires a.children.Some? && b.children.Some?
    ensures DropdownPanelShown(a, true) && DropdownPanelShown(b, true)
    ensures !DropdownPanelShown(a, false) && !DropdownPanelShown(b, false)
  {
  }

  /** The mobile overlay shows a link in the accent colour when it is
      highlighted, whether or not it also has children, and lists its
      children beneath it when it has them. */
  function MobileLinkAccent(link: NavLink): (accent: bool)
    ensures accent <==> link.highlight == Some(true)
  {
    TruthyBool(link.highlight)
  }

  // ---------------------------------------------------------------------
  // The state machine, on values

  /** The header's flags together with `document.body.style.overflow`. */
  datatype NavState = NavState(
    scrolled: bool,
    mobileOpen: bool,
    dropdownOpen: bool,
    bodyOverflow: string)

  datatype Event =
    | Scroll(y: real)
    | HamburgerClick
    | MobileLinkClick
    | DropdownEnter
    | DropdownLeave

  /** What the overflow effect writes for a given `mobileOpen`. */
  function OverflowFor(mobileOpen: bool): string
  {
    if mobileOpen then OverflowLocked else OverflowDefault
  }

  /** The body scroll lock matches the mobile menu. */
  predicate Synced(s: NavState)
  {
    s.bodyOverflow == OverflowFor(s.mobileOpen)
  }

  /** The state right after mounting over a page whose body overflow was
      anything at all: flags cleared, and the first effect run writes the
      unlocked value. */
  function Mounted(priorOverflow: string): (s: NavState)
    ensures Synced(s) && !s.scrolled && !s.mobileOpen && !s.dropdownOpen
  {
    NavState(false, false, false, OverflowFor(false))
  }

  /** `setMobileOpen(m)`: React keeps the state (and skips the effect) when
      `m` equals the current value; otherwise the previous effect's cleanup
      resets the overflow and the new effect writes the value for `m`. */
  function WithMobileOpen(s: NavState, m: bool): (r: NavState)
    ensures r.mobileOpen == m && r.scrolled == s.scrolled && r.dropdownOpen == s.dropdownOpen
    ensures Synced(s) ==> Synced(r)
  {
    if m == s.mobileOpen then s
    else s.(mobileOpen := m, bodyOverflow := OverflowFor(m))
  }

  function Step(s: NavState, e: Event): NavState
  {
    match e
    case Scroll(y) => s.(scrolled := y > ScrollThreshold)
    case HamburgerClick => WithMobileOpen(s, !s.mobileOpen)
    case MobileLinkClick => WithMobileOpen(s, false)
    case DropdownEnter => s.(dropdownOpen := true)
    case DropdownLeave => s.(dropdownOpen := false)
  }

  /** The state after a sequence of events, first event first. */
  function Run(s: NavState, events: seq<Event>): NavState
    decreases |events|
  {
    if events == [] then s else Run(Step(s, events[0]), events[1..])
  }

  /** A scroll event sets `scrolled` to whether the offset is past the
      threshold and changes nothing else. */
  lemma ScrollOnlySetsScrolled(s: NavState, y: real)
    ensures Step(s, Scroll(y)) == s.(scrolled := y > 60.0)
  {
  }

  /** Every event keeps the body scroll lock in step with the menu. */
  lemma StepKeepsSynced(s: NavState, e: Event)
    requires Synced(s)
    ensures Synced(Step(s, e))
  {
  }

  /** From mounting onwards, after any sequence of events the body is
      locked exactly when the mobile menu is open. */
  lemma {:induction false} RunKeepsSynced(s: NavState, events: seq<Event>)
    requires Synced(s)
    ensures Synced(Run(s, events))
    ensures Run(s, events).bodyOverflow == (if Run(s, events).mobileOpen then "hidden" else "")
    decreases |events|
  {
    if events != [] {
      StepKeepsSynced(s, events[0]);
      RunKeepsSynced(Step(s, events[0]), events[1..]);
    }
  }

  lemma OverflowAfterAnyEvents(priorOverflow: string, events: seq<Event>)
    ensures var s := Run(Mounted(priorOverflow), events);
      s.bodyOverflow == "hidden" <==> s.mobileOpen
  {
    RunKeepsSynced(Mounted(priorOverflow), events);
  }

  /** The hamburger flips the menu and leaves the other flags alone; a
      second click restores the state exactly. */
  lemma HamburgerIsInvolution(s: NavState)
    requires Synced(s)
    ensures Step(s, HamburgerClick).mobileOpen == !s.mobileOpen
    ensures Step(s, HamburgerClick).scrolled == s.scrolled
    ensures Step(s, HamburgerClick).dropdownOpen == s.dropdownOpen
    ensures Step(Step(s, HamburgerClick), HamburgerClick) == s
  {
  }

  /** A link in the mobile overlay (top-level or child) closes the menu
      whatever it was, so a second click does nothing more. */
  lemma MobileLinkClickCloses(s: NavState)
    requires Synced(s)
    ensures !Step(s, MobileLinkClick).mobileOpen
    ensures Step(s, MobileLinkClick).bodyOverflow == ""
    ensures Step(Step(s, MobileLinkClick), MobileLinkClick) == Step(s, MobileLinkClick)
  {
  }

  /** Entering a dropdown item opens the shared dropdown, leaving closes it,
      and neither touches the other flags. */
  lemma DropdownHover(s: NavState)
    ensures Step(s, DropdownEnter) == s.(dropdownOpen := true)
    ensures Step(s, DropdownLeave) == s.(dropdownOpen := false)
    ensures Step(Step(s, DropdownEnter), DropdownLeave) == s.(dropdownOpen := false)
  {
  }

  // ---------------------------------------------------------------------
  // Chrome derived from the flags

  datatype Background = TransparentBackground | ScrolledBackground
  datatype Backdrop = NoBackdrop | Blur20
  datatype BottomBorder = TransparentBorder | HeaderBorder

  datatype Chrome = Chrome(
    onDark: bool,
    background: Background,
    backdrop: Backdrop,
    border: BottomBorder,
    hamburgerLabel: string,
    hamburgerExpanded: bool,
    dropdownExpanded: bool,
    overlayShown: bool)

  /** The header's look for a state: transparent over the dark hero only
      while neither scrolled nor the menu is open; the bottom border follows
      `scrolled` alone; the aria attributes mirror the flags. */
  function ChromeFor(s: NavState): (c: Chrome)
    ensures c.onDark <==> !s.scrolled && !s.mobileOpen
    ensures c.background == ScrolledBackground <==> !c.onDark
    ensures c.backdrop == Blur20 <==> !c.onDark
    ensures c.border == HeaderBorder <==> s.scrolled
    ensures c.hamburgerLabel == (if s.mobileOpen then "Close menu" else "Open menu")
    ensures c.hamburgerExpanded == s.mobileOpen && c.dropdownExpanded == s.dropdownOpen
    ensures c.overlayShown == s.mobileOpen
  {
    var solid := s.scrolled || s.mobileOpen;
    Chrome(
      !s.scrolled && !s.mobileOpen,
      if solid then ScrolledBackground else TransparentBackground,
      if solid then Blur20 else NoBackdrop,
      if s.scrolled then HeaderBorder else TransparentBorder,
      if s.mobileOpen then "Close menu" else "Open menu",
      s.mobileOpen,
      s.dropdownOpen,
      s.mobileOpen)
  }

  /** The hamburger button announces what a click will do, and its
      `aria-expanded` follows the menu. */
  lemma HamburgerAria(s: NavState)
    ensures ChromeFor(s).hamburgerLabel == "Close menu" <==> s.mobileOpen
    ensures ChromeFor(s).hamburgerLabel == "Open menu" <==> !s.mobileOpen
    ensures ChromeFor(s).hamburgerExpanded == s.mobileOpen
  {
  }

  /** Every dropdown button's `aria-expanded` follows the shared flag. */
  lemma DropdownAria(s: NavState, e: Event)
    requires e == DropdownEnter || e == DropdownLeave
    ensures ChromeFor(Step(s, e)).dropdownExpanded <==> e == DropdownEnter
  {
  }

  /** Opening the menu at the top of the page makes the header solid but
      does not draw the bottom border. */
  lemma MenuAloneHasNoBorder(s: NavState)
    requires s.mobileOpen && !s.scrolled
    ensures ChromeFor(s).background == ScrolledBackground
    ensures ChromeFor(s).border == TransparentBorder
  {
  }

  /** At offset 0 the header is fully transparent; at offset 100 it is
      opaque with its border. */
  lemma ScrollEndToEnd(priorOverflow: string)
    ensures var c := ChromeFor(Run(Mounted(priorOverflow), [Scroll(0.0)]));
      c.onDark && c.background == TransparentBackground && c.border == TransparentBorder
    ensures var c := ChromeFor(Run(Mounted(priorOverflow), [Scroll(100.0)]));
      !c.onDark && c.background == ScrolledBackground && c.border == HeaderBorder
  {
  }

  // ---------------------------------------------------------------------
  // The component, with its state updated in place

  /** The page-wide `document.body.style`, reduced to its overflow. */
  class Document {
    var bodyOverflow: string

    constructor (overflow: string)
      ensures bodyOverflow == overflow
    {
      bodyOverflow := overflow;
    }
  }

  class HeaderComponent {
    var scrolled: bool
    var mobileOpen: bool
    var dropdownOpen: bool
    var mounted: bool
    const doc: Document

    /** While mounted, the overflow effect has last run for the current
        `mobileOpen`. */
    ghost predicate Valid()
      reads this, doc
    {
      mounted ==> doc.bodyOverflow == OverflowFor(mobileOpen)
    }

    function State(): NavState
      reads this, doc
    {
      NavState(scrolled, mobileOpen, dropdownOpen, doc.bodyOverflow)
    }

    /** Mounting: the flags start false and the effect runs once. */
    constructor Mount(doc: Document)
      modifies doc
      ensures this.doc == doc && mounted && Valid()
      ensures State() == Mounted(old(doc.bodyOverflow))
    {
      this.doc := doc;
      scrolled, mobileOpen, dropdownOpen := false, false, false;
      mounted := true;
      new;
      RunOverflowEffect();
    }

    /** The body of the `[mobileOpen]` effect. */
    method RunOverflowEffect()
      modifies doc
      ensures doc.bodyOverflow == OverflowFor(mobileOpen)
    {
      doc.bodyOverflow := if mobileOpen then OverflowLocked else OverflowDefault;
    }

    /** The effect's cleanup. */
    method CleanupOverflowEffect()
      modifies doc
      ensures doc.bodyOverflow == OverflowDefault
    {
      doc.bodyOverflow := OverflowDefault;
    }

    /** `setMobileOpen(m)` followed by the re-render it triggers. */
    method SetMobileOpen(m: bool)
      requires mounted && Valid()
      modifies this`mobileOpen, doc
      ensures Valid()
      ensures State() == WithMobileOpen(old(State()), m)
    {
      if m != mobileOpen {
        mobileOpen := m;
        CleanupOverflowEffect();
        RunOverflowEffect();
      }
    }

    method OnScroll(y: real)
      requires mounted && Valid()
      modifies this`scrolled
      ensures Valid()
      ensures State() == Step(old(State()), Scroll(y))
    {
      scrolled := y > ScrollThreshold;
    }

    method OnHamburgerClick()
      requires mounted && Valid()
      modifies this`mobileOpen, doc
      ensures Valid()
      ensures State() == Step(old(State()), HamburgerClick)
    {
      SetMobileOpen(!mobileOpen);
    }

    /** A click on any top-level or child link of the mobile overlay. */
    method OnMobileLinkClick()
      requires mounted && Valid()
      modifies this`mobileOpen, doc
      ensures Valid()
      ensures State() == Step(old(State()), MobileLinkClick)
    {
      SetMobileOpen(false);
    }

    method OnDropdownEnter()
      requires mounted && Valid()
      modifies this`dropdownOpen
      ensures Valid()
      ensures State() == Step(old(State()), DropdownEnter)
    {
      dropdownOpen := true;
    }

    method OnDropdownLeave()
      requires mounted && Valid()
      modifies this`dropdownOpen
      ensures Valid()
      ensures State() == Step(old(State()), DropdownLeave)
    {
      dropdownOpen := false;
    }

    /** Unmounting runs the cleanup, which always restores the default
        overflow rather than whatever the page had before mounting. */
    method Unmount()
      requires mounted && Valid()
      modifies this`mounted, doc
      ensures !mounted && doc.bodyOverflow == ""
      ensures scrolled == old(scrolled) && mobileOpen == old(mobileOpen)
      ensures dropdownOpen == old(dropdownOpen)
    {
      CleanupOverflowEffect();
      mounted := false;
    }

    function CurrentChrome(): (c: Chrome)
      reads this, doc
      ensures c.onDark <==> !scrolled && !mobileOpen
    {
      ChromeFor(State())
    }
  }

  /** A client run: two hamburger clicks leave the header and the page as
      they were, and unmounting with the menu open releases the lock. */
  method HamburgerTwiceThenUnmount(h: HeaderComponent)
    requires h.mounted && h.Valid()
    modifies h, h.doc
    ensures !h.mounted && h.doc.bodyOverflow == ""
    ensures h.scrolled == old(h.scrolled) && h.mobileOpen == old(h.mobileOpen)
    ensures h.dropdownOpen == old(h.dropdownOpen)
  {
    h.OnHamburgerClick();
    h.OnHamburgerClick();
    assert h.State() == old(h.State());
    h.Unmount();
  }
}
