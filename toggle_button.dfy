/**
 * ToggleButtonController: a button with two states, `isPrimary`, that shows
 * its primary icon in the primary state and its secondary icon otherwise.
 * Either icon may be unbound (null); a bound icon is a scene object of which
 * only the active flag is kept.
 */
module ToggleButtons {
  import opened Wrappers

  /** A scene object; `SetActive(b)` sets `active`. */
  class Icon {
    var active: bool

    constructor (active: bool)
      ensures this.active == active
    {
      this.active := active;
    }
  }

  /**
   * A toggle button seen as a value: its state and the active flag of each
   * bound icon (None for an unbound one).
   */
  datatype ToggleView = ToggleView(isPrimary: bool, primary: Option<bool>, secondary: Option<bool>)

  /** The bound icons agree with the state: the primary one is active iff primary, the secondary one iff not. */
  predicate Consistent(v: ToggleView) {
    (v.primary.Some? ==> v.primary.value == v.isPrimary) &&
    (v.secondary.Some? ==> v.secondary.value == !v.isPrimary)
  }

  /** The view after `UpdateState(b)` on a button whose two icons are different objects. */
  function Updated(v: ToggleView, b: bool): (r: ToggleView)
    ensures r.isPrimary == b && Consistent(r)
    ensures r.primary.Some? == v.primary.Some? && r.secondary.Some? == v.secondary.Some?
    ensures r.primary.Some? && r.secondary.Some? ==> r.primary.value != r.secondary.value
  {
    ToggleView(b,
      if v.primary.Some? then Some(b) else None,
      if v.secondary.Some? then Some(!b) else None)
  }

  /** The view after `ToggleState()`. */
  function Toggled(v: ToggleView): (r: ToggleView)
    ensures r.isPrimary == !v.isPrimary && Consistent(r)
  {
    Updated(v, !v.isPrimary)
  }

  /** UpdateState is idempotent. */
  lemma UpdateIdempotent(v: ToggleView, b: bool)
    ensures Updated(Updated(v, b), b) == Updated(v, b)
  {
  }

  /** On a consistent button UpdateState with the current state changes nothing, so Start then does nothing. */
  lemma UpdateKeepsConsistent(v: ToggleView)
    requires Consistent(v)
    ensures Updated(v, v.isPrimary) == v
  {
  }

  /** Toggling twice gives back a consistent state, and in general the state resynchronised with its flag. */
  lemma ToggleTwice(v: ToggleView)
    ensures Toggled(Toggled(v)) == Updated(v, v.isPrimary)
    ensures Consistent(v) ==> Toggled(Toggled(v)) == v
  {
  }

  class ToggleButton {
    var isPrimary: bool
    const primaryIcon: Icon?
    const secondaryIcon: Icon?

    /** The button as placed in the scene, before Start; `isPrimary` is true unless set otherwise. */
    constructor (isPrimary: bool, primaryIcon: Icon?, secondaryIcon: Icon?)
      ensures this.isPrimary == isPrimary
      ensures this.primaryIcon == primaryIcon && this.secondaryIcon == secondaryIcon
    {
      this.isPrimary := isPrimary;
      this.primaryIcon := primaryIcon;
      this.secondaryIcon := secondaryIcon;
    }

    /** The button and its bound icons. */
    ghost function Repr(): set<object> {
      {this} + (if primaryIcon != null then {primaryIcon} else {})
             + (if secondaryIcon != null then {secondaryIcon} else {})
    }

    /** The two icons are not one and the same scene object. */
    predicate SeparateIcons() {
      primaryIcon == null || primaryIcon != secondaryIcon
    }

    function View(): ToggleView
      reads this, primaryIcon, secondaryIcon
    {
      ToggleView(isPrimary,
        if primaryIcon != null then Some(primaryIcon.active) else None,
        if secondaryIcon != null then Some(secondaryIcon.active) else None)
    }

    /**
     * Start: brings the icons in line with the initial state. The value of
     * `isPrimary` itself stays as it was.
     */
    method Start()
      modifies Repr()
      ensures SeparateIcons() ==> View() == Updated(old(View()), old(isPrimary))
      ensures !SeparateIcons() ==> isPrimary == old(isPrimary) && primaryIcon.active == !isPrimary
    {
      UpdateState(isPrimary);
    }

    method ToggleState()
      modifies Repr()
      ensures SeparateIcons() ==> View() == Toggled(old(View()))
      ensures !SeparateIcons() ==> isPrimary == !old(isPrimary) && primaryIcon.active == !isPrimary
    {
      UpdateState(!isPrimary);
    }

    /**
     * UpdateState(b): records b and shows the matching icon. When one object
     * is bound as both icons it is set for the primary state first and then
     * for the secondary one, so it ends up active iff not b.
     */
    method UpdateState(isPrimary: bool)
      modifies Repr()
      ensures SeparateIcons() ==> View() == Updated(old(View()), isPrimary)
      ensures !SeparateIcons() ==> this.isPrimary == isPrimary && primaryIcon.active == !isPrimary
    {
      this.isPrimary := isPrimary;
      if primaryIcon != null {
        primaryIcon.active := isPrimary;
      }
      if secondaryIcon != null {
        secondaryIcon.active := !isPrimary;
      }
    }
  }

  /** The objects a possibly unbound button may change. */
  ghost function Footprint(b: ToggleButton?): set<object> {
    if b == null then {} else b.Repr()
  }
}
