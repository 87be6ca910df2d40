/** Mobile navigation toggle (js/main.js, section 3): the menu's `active`
    class and the toggle button's `aria-expanded` attribute. */
module MobileMenu {

  /** The string `setAttribute` stores for a boolean value. */
  function BoolAttribute(b: bool): (s: string)
    ensures s == "true" <==> b
    ensures s == "true" || s == "false"
  {
    if b then "true" else "false"
  }

  /** The menu's `active` class and the toggle's `aria-expanded` value. */
  datatype MenuState = MenuState(active: bool, ariaExpanded: string)

  /** The class and the accessibility attribute tell the same story. */
  predicate Consistent(m: MenuState)
  {
    m.active <==> m.ariaExpanded == "true"
  }

  /** A press on the toggle: the attribute is set to the negation of what
      it read, and the class is flipped on its own. */
  function Toggled(m: MenuState): (r: MenuState)
    ensures r.active == !m.active
    ensures r.ariaExpanded == "true" <==> m.ariaExpanded != "true"
    ensures r.ariaExpanded == "true" || r.ariaExpanded == "false"
    ensures Consistent(m) ==> Consistent(r)
  {
    var isExpanded := m.ariaExpanded == "true";
    MenuState(!m.active, BoolAttribute(!isExpanded))
  }

  /** A click on any navigation link closes the menu. */
  function AfterLinkClick(m: MenuState): (r: MenuState)
    ensures !r.active && r.ariaExpanded == "false"
    ensures Consistent(r)
  {
    MenuState(false, "false")
  }

  /** A click anywhere in the document closes the menu when it falls
      outside both the menu and the toggle, and changes nothing otherwise. */
  function AfterDocumentClick(m: MenuState, outside: bool): (r: MenuState)
    ensures outside ==> !r.active && r.ariaExpanded == "false"
    ensures !outside ==> r == m
    ensures Consistent(m) ==> Consistent(r)
  {
    if outside then MenuState(false, "false") else m
  }

  /** Two presses on the toggle restore a menu whose attribute holds one of
      the two strings `setAttribute` writes. */
  lemma ToggleTwiceRestores(m: MenuState)
    requires m.ariaExpanded == "true" || m.ariaExpanded == "false"
    ensures Toggled(Toggled(m)) == m
  {
  }

  /** The menu and its toggle button. */
  class MenuController {
    var active: bool
    var ariaExpanded: string

    function State(): MenuState
      reads this
    {
      MenuState(active, ariaExpanded)
    }

    /** The page loads with the menu collapsed and `aria-expanded="false"`. */
    constructor ()
      ensures State() == MenuState(false, "false")
      ensures Consistent(State())
    {
      active := false;
      ariaExpanded := "false";
    }

    method ToggleClick()
      modifies this
      ensures State() == Toggled(old(State()))
    {
      var isExpanded := ariaExpanded == "true";
      ariaExpanded := if !isExpanded then "true" else "false";
      active := !active;
    }

    method LinkClick()
      modifies this
      ensures State() == AfterLinkClick(old(State()))
    {
      active := false;
      ariaExpanded := "false";
    }

    /** `outside` is the hit test: the click target lies in neither the menu
        nor the toggle. */
    method DocumentClick(outside: bool)
      modifies this
      ensures State() == AfterDocumentClick(old(State()), outside)
    {
      if outside {
        active := false;
        ariaExpanded := "false";
      }
    }
  }
}
