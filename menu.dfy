/**
 * The mobile menu of js/main.js: the toggle button's `aria-expanded`
 * attribute, the `show-mobile` / `hide-mobile` classes of the primary
 * navigation, where keyboard focus is, and the four listeners that change
 * them (toggle click, Escape, outside click, and the Tab focus trap).
 */
module MobileMenu {
  import opened Js

  /** Where keyboard focus is, as far as the menu is concerned. */
  datatype Focus =
    | ToggleButton
      /** The `i`-th focusable element inside the navigation. */
    | NavItem(i: nat)
    | Elsewhere

  /** What the focus-trap listener does with a key press. */
  datatype TrapAction =
    | NoAction
      /** `preventDefault()` and move focus to the `j`-th focusable element. */
    | Wrap(j: nat)

  /** `aria-expanded` reads as expanded only when it is the string "true". */
  predicate IsExpanded(ariaExpanded: Option<string>) {
    ariaExpanded == Some("true")
  }

  /**
   * The navigation's keydown listener. While the menu is expanded, Shift+Tab
   * on the first of the `n` focusable elements wraps to the last, and Tab on
   * the last wraps to the first; any other key, or a collapsed menu, is left
   * to the browser. With no focusable element nothing matches.
   */
  function TabTrap(expanded: bool, n: nat, active: Focus, key: string, shift: bool): (r: TrapAction)
    ensures r.Wrap? ==> expanded && key == "Tab" && n > 0 && r.j < n
    ensures r.Wrap? && shift ==> active == NavItem(0) && r.j == n - 1
    ensures r.Wrap? && !shift ==> active == NavItem(n - 1) && r.j == 0
    ensures expanded && key == "Tab" && n > 0 && shift && active == NavItem(0) ==> r == Wrap(n - 1)
    ensures expanded && key == "Tab" && n > 0 && !shift && active == NavItem(n - 1) ==> r == Wrap(0)
  {
    if key == "Tab" && expanded && n > 0 then
      if shift && active == NavItem(0) then Wrap(n - 1)
      else if !shift && active == NavItem(n - 1) then Wrap(0)
      else NoAction
    else NoAction
  }

  /**
   * The browser's own Tab move among the navigation's `n` focusable elements,
   * in document order: the next (or, with Shift, the previous) one, or out of
   * the navigation past either end.
   */
  function DefaultTab(i: nat, n: nat, shift: bool): (f: Focus)
    requires i < n
    ensures f.NavItem? ==> f.i < n
    ensures f == Elsewhere <==> (shift && i == 0) || (!shift && i == n - 1)
    ensures !shift && i + 1 < n ==> f == NavItem(i + 1)
    ensures shift && i > 0 ==> f == NavItem(i - 1)
  {
    if shift then (if i == 0 then Elsewhere else NavItem(i - 1))
    else if i + 1 < n then NavItem(i + 1) else Elsewhere
  }

  /** Where focus ends up after a Tab key press: the trap's target, or the browser's move. */
  function AfterTab(expanded: bool, n: nat, i: nat, shift: bool): (f: Focus)
    requires i < n
  {
    match TabTrap(expanded, n, NavItem(i), "Tab", shift)
    case Wrap(j) => NavItem(j)
    case NoAction => DefaultTab(i, n, shift)
  }

  /**
   * The trap's purpose: while the menu is expanded, Tab and Shift+Tab from a
   * focusable element of the navigation always land on one of its focusable
   * elements.
   */
  lemma FocusStaysInside(n: nat, i: nat, shift: bool)
    requires i < n
    ensures AfterTab(true, n, i, shift).NavItem?
    ensures AfterTab(true, n, i, shift).i < n
  {
  }

  /** While the menu is collapsed, Tab leaves the last element and Shift+Tab the first. */
  lemma CollapsedTabLeaves(n: nat)
    requires n > 0
    ensures AfterTab(false, n, n - 1, false) == Elsewhere
    ensures AfterTab(false, n, 0, true) == Elsewhere
  {
  }

  /** The toggle button and the primary navigation. */
  class Menu {
    /** The toggle's `aria-expanded` attribute; None when it is not set. */
    var ariaExpanded: Option<string>
    /** Whether the navigation has the `show-mobile` class. */
    var showMobile: bool
    /** Whether the navigation has the `hide-mobile` class. */
    var hideMobile: bool
    var focused: Focus

    predicate Expanded()
      reads this
    {
      IsExpanded(ariaExpanded)
    }

    /** The classes agree with the attribute: exactly one of them, the one for the state. */
    predicate Consistent()
      reads this
    {
      showMobile == Expanded() && hideMobile == !Expanded()
    }

    /** The page as loaded: the markup decides the attribute and the classes. */
    constructor (ariaExpanded: Option<string>, showMobile: bool, hideMobile: bool, focused: Focus)
      ensures this.ariaExpanded == ariaExpanded && this.showMobile == showMobile
      ensures this.hideMobile == hideMobile && this.focused == focused
    {
      this.ariaExpanded := ariaExpanded;
      this.showMobile := showMobile;
      this.hideMobile := hideMobile;
      this.focused := focused;
    }

    /** Collapses the menu: `aria-expanded="false"`, `hide-mobile` on, `show-mobile` off. */
    method Collapse()
      modifies this`ariaExpanded, this`showMobile, this`hideMobile
      ensures ariaExpanded == Some("false") && !showMobile && hideMobile
      ensures !Expanded() && Consistent()
    {
      ariaExpanded := Some("false");
      hideMobile := true;
      showMobile := false;
    }

    /**
     * The toggle's click listener: the state flips, written back as the
     * string "true" or "false", and the classes follow the new state,
     * whatever they were before. Focus does not move.
     */
    method OnToggleClick()
      modifies this`ariaExpanded, this`showMobile, this`hideMobile
      ensures Expanded() == !old(Expanded())
      ensures ariaExpanded == Some(if old(Expanded()) then "false" else "true")
      ensures Consistent()
    {
      var isExpanded := IsExpanded(ariaExpanded);
      ariaExpanded := Some(if isExpanded then "false" else "true");
      if isExpanded {
        hideMobile := true;
        showMobile := false;
      } else {
        hideMobile := false;
        showMobile := true;
      }
    }

    /**
     * The document's keydown listener: Escape on an expanded menu collapses
     * it and returns focus to the toggle; anything else changes nothing.
     */
    method OnDocumentKeyDown(key: string)
      modifies this`ariaExpanded, this`showMobile, this`hideMobile, this`focused
      ensures key == "Escape" && old(Expanded()) ==>
                ariaExpanded == Some("false") && !Expanded() && Consistent() && focused == ToggleButton
      ensures !(key == "Escape" && old(Expanded())) ==>
                ariaExpanded == old(ariaExpanded) && showMobile == old(showMobile) &&
                hideMobile == old(hideMobile) && focused == old(focused)
    {
      if key == "Escape" && IsExpanded(ariaExpanded) {
        Collapse();
        focused := ToggleButton;
      }
    }

    /**
     * The document's click listener: a click outside both the navigation and
     * the toggle collapses an expanded menu; any other click changes nothing.
     */
    method OnDocumentClick(insideNav: bool, onToggle: bool)
      modifies this`ariaExpanded, this`showMobile, this`hideMobile
      ensures !insideNav && !onToggle && old(Expanded()) ==>
                ariaExpanded == Some("false") && !Expanded() && Consistent()
      ensures !(!insideNav && !onToggle && old(Expanded())) ==>
                ariaExpanded == old(ariaExpanded) && showMobile == old(showMobile) && hideMobile == old(hideMobile)
    {
      if !insideNav && !onToggle && IsExpanded(ariaExpanded) {
        Collapse();
      }
    }

    /**
     * A click on the toggle reaches its own listener first and then bubbles to
     * the document's, which ignores clicks on the toggle: the net effect is a
     * plain flip, so the outside-click rule never undoes an opening.
     */
    method ClickToggle()
      modifies this`ariaExpanded, this`showMobile, this`hideMobile
      ensures Expanded() == !old(Expanded())
      ensures Consistent()
    {
      OnToggleClick();
      OnDocumentClick(false, true);
    }

    /**
     * The navigation's keydown listener over its `n` focusable elements,
     * while focus is inside it. It returns whether the default was prevented.
     */
    method OnNavKeyDown(key: string, shift: bool, n: nat) returns (prevented: bool)
      modifies this`focused
      ensures prevented <==> TabTrap(Expanded(), n, old(focused), key, shift).Wrap?
      ensures prevented ==> focused == NavItem(TabTrap(Expanded(), n, old(focused), key, shift).j)
      ensures !prevented ==> focused == old(focused)
    {
      prevented := false;
      if key == "Tab" && IsExpanded(ariaExpanded) {
        if n > 0 {
          if shift && focused == NavItem(0) {
            prevented := true;
            focused := NavItem(n - 1);
          } else if !shift && focused == NavItem(n - 1) {
            prevented := true;
            focused := NavItem(0);
          }
        }
      }
    }
  }
}
