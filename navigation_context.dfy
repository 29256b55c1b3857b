/**
 * The navigation provider: three flags (sidebar open, sidebar collapsed,
 * mobile menu open), the callbacks that change them, the resize rule, the
 * collapsed flag persisted in browser storage under 'sidebar-collapsed', and
 * the body scroll lock that follows the mobile menu. Each method runs a
 * callback together with the effects it triggers.
 */
module NavigationContext {
  import opened Wrappers

  /** `String(b)` */
  function BoolString(b: bool): (r: string) {
    if b then "true" else "false"
  }

  /** The mount effect: a stored value sets the flag to `stored === 'true'`; none keeps the default. */
  function LoadCollapsed(stored: Option<string>, defaultCollapsed: bool): (r: bool)
    ensures stored.None? ==> r == defaultCollapsed
    ensures stored.Some? ==> (r <==> stored.value == "true")
  {
    match stored
    case None => defaultCollapsed
    case Some(s) => s == "true"
  }

  /** Loading what was saved gives back the saved flag, whatever the default. */
  lemma LoadOfSaved(b: bool, defaultCollapsed: bool)
    ensures LoadCollapsed(Some(BoolString(b)), defaultCollapsed) == b
  {
  }

  /** Any stored text other than "true", such as "TRUE" or "1", loads as not collapsed. */
  lemma OnlyTrueLoadsCollapsed(s: string, defaultCollapsed: bool)
    requires s != "true"
    ensures !LoadCollapsed(Some(s), defaultCollapsed)
  {
  }

  /** The body overflow style the scroll-lock effect sets. */
  function Overflow(mobileMenuOpen: bool): (r: string) {
    if mobileMenuOpen then "hidden" else ""
  }

  const DesktopWidth := 768

  /** What `useNavigation()` hands to a component. */
  datatype ContextValue = ContextValue(isSidebarOpen: bool, isSidebarCollapsed: bool, isMobileMenuOpen: bool)
  datatype Lookup = Found(value: ContextValue) | Threw(message: string)

  const OutsideProvider := "useNavigation must be used within NavigationProvider"

  /** `useNavigation`: the nearest provider's value, or an error outside any provider. */
  function UseNavigation(context: Option<ContextValue>): (r: Lookup)
    ensures r.Threw? <==> context.None?
    ensures r.Threw? ==> r.message == OutsideProvider
    ensures r.Found? ==> r.value == context.value
  {
    match context
    case None => Threw(OutsideProvider)
    case Some(v) => Found(v)
  }

  class Provider {
    var isSidebarOpen: bool
    var isSidebarCollapsed: bool
    var isMobileMenuOpen: bool
    /** The 'sidebar-collapsed' entry of browser storage. */
    var stored: Option<string>
    /** `document.body.style.overflow` */
    var bodyOverflow: string

    /** After every update the stored flag and the scroll lock agree with the state. */
    predicate Valid()
      reads this
    {
      stored == Some(BoolString(isSidebarCollapsed)) && bodyOverflow == Overflow(isMobileMenuOpen)
    }

    function Value(): (r: ContextValue)
      reads this
    {
      ContextValue(isSidebarOpen, isSidebarCollapsed, isMobileMenuOpen)
    }

    /**
     * Mounting: initial state, then the effects in order. The load effect reads
     * the entry, the save effect first writes the default and, after the
     * re-render, the loaded flag.
     */
    constructor (defaultCollapsed: bool, initiallyStored: Option<string>)
      ensures Valid()
      ensures isSidebarOpen && !isMobileMenuOpen
      ensures isSidebarCollapsed == LoadCollapsed(initiallyStored, defaultCollapsed)
    {
      isSidebarOpen := true;
      isSidebarCollapsed := defaultCollapsed;
      isMobileMenuOpen := false;
      stored := initiallyStored;
      bodyOverflow := "";
      new;
      var loaded := isSidebarCollapsed;
      if stored.Some? {
        loaded := stored.value == "true";
      }
      stored := Some(BoolString(isSidebarCollapsed));
      isSidebarCollapsed := loaded;
      stored := Some(BoolString(isSidebarCollapsed));
    }

    /** `toggleSidebar` */
    method ToggleSidebar()
      requires Valid()
      modifies this
      ensures Valid()
      ensures isSidebarOpen == !old(isSidebarOpen)
      ensures isSidebarCollapsed == old(isSidebarCollapsed) && isMobileMenuOpen == old(isMobileMenuOpen)
      ensures stored == old(stored) && bodyOverflow == old(bodyOverflow)
    {
      isSidebarOpen := !isSidebarOpen;
    }

    /** `collapseSidebar`, followed by the save effect. */
    method CollapseSidebar()
      requires Valid()
      modifies this
      ensures Valid()
      ensures isSidebarCollapsed && stored == Some("true")
      ensures isSidebarOpen == old(isSidebarOpen) && isMobileMenuOpen == old(isMobileMenuOpen)
      ensures bodyOverflow == old(bodyOverflow)
    {
      isSidebarCollapsed := true;
      stored := Some(BoolString(isSidebarCollapsed));
    }

    /** `expandSidebar`, followed by the save effect. */
    method ExpandSidebar()
      requires Valid()
      modifies this
      ensures Valid()
      ensures !isSidebarCollapsed && stored == Some("false")
      ensures isSidebarOpen == old(isSidebarOpen) && isMobileMenuOpen == old(isMobileMenuOpen)
      ensures bodyOverflow == old(bodyOverflow)
    {
      isSidebarCollapsed := false;
      stored := Some(BoolString(isSidebarCollapsed));
    }

    /** `toggleMobileMenu`, followed by the scroll-lock effect. */
    method ToggleMobileMenu()
      requires Valid()
      modifies this
      ensures Valid()
      ensures isMobileMenuOpen == !old(isMobileMenuOpen)
      ensures bodyOverflow == (if isMobileMenuOpen then "hidden" else "")
      ensures isSidebarOpen == old(isSidebarOpen) && isSidebarCollapsed == old(isSidebarCollapsed)
      ensures stored == old(stored)
    {
      isMobileMenuOpen := !isMobileMenuOpen;
      bodyOverflow := Overflow(isMobileMenuOpen);
    }

    /** The resize listener: reaching desktop width closes an open mobile menu. */
    method Resize(innerWidth: int)
      requires Valid()
      modifies this
      ensures Valid()
      ensures innerWidth >= DesktopWidth ==> !isMobileMenuOpen
      ensures innerWidth < DesktopWidth ==> isMobileMenuOpen == old(isMobileMenuOpen)
      ensures isSidebarOpen == old(isSidebarOpen) && isSidebarCollapsed == old(isSidebarCollapsed)
      ensures stored == old(stored)
    {
      if innerWidth >= DesktopWidth && isMobileMenuOpen {
        isMobileMenuOpen := false;
        bodyOverflow := Overflow(isMobileMenuOpen);
      }
    }
  }

  /** Toggling either flag twice restores every flag; collapse and expand are idempotent. */
  method TogglesUndo(defaultCollapsed: bool, initiallyStored: Option<string>)
    returns (before: ContextValue, afterSidebar: ContextValue, afterMobile: ContextValue, collapsedTwice: bool)
    ensures afterSidebar == before && afterMobile == before
    ensures collapsedTwice
  {
    var p := new Provider(defaultCollapsed, initiallyStored);
    before := p.Value();
    p.ToggleSidebar();
    p.ToggleSidebar();
    afterSidebar := p.Value();
    p.ToggleMobileMenu();
    p.ToggleMobileMenu();
    afterMobile := p.Value();
    p.CollapseSidebar();
    p.CollapseSidebar();
    collapsedTwice := p.isSidebarCollapsed;
  }

  /** A remount reads back the collapsed flag the previous provider left in storage. */
  method RemountKeepsCollapsed(defaultCollapsed: bool, initiallyStored: Option<string>, collapse: bool)
    returns (first: bool, second: bool)
    ensures first == collapse && second == first
  {
    var p := new Provider(defaultCollapsed, initiallyStored);
    if collapse {
      p.CollapseSidebar();
    } else {
      p.ExpandSidebar();
    }
    first := p.isSidebarCollapsed;
    var q := new Provider(!defaultCollapsed, p.stored);
    second := q.isSidebarCollapsed;
  }
}
