/**
 * The `useCards` hook: the selection state of one card, its setters, the
 * `disabled` guard on the interactive ones, the `onChange` notifications and
 * the accessible button props with their click and key handlers.
 */
module UseCards {
  import opened Wrappers

  /** The DOM props `getButtonProps()` returns, without the handlers (those are `Click` and `KeyDown`). */
  datatype ButtonProps = ButtonProps(role: string, tabIndex: int, ariaPressed: bool, dataSelected: string)

  /** `data-selected`: the selection written as a string. */
  function DataSelected(selected: bool): (s: string)
    ensures s == "true" || s == "false"
    ensures s == "true" <==> selected
  {
    if selected then "true" else "false"
  }

  /** The keys that activate the card from the keyboard: Space and Enter. */
  predicate IsActivationKey(key: string) {
    key == " " || key == "Enter"
  }

  /** `useCards({ initialSelected, onChange, disabled })`. */
  class CardSelection {
    var selected: bool
    const disabled: bool
    /** Whether an `onChange` callback was given. */
    const hasOnChange: bool
    /** The values passed to `onChange`, oldest first. */
    var notifications: seq<bool>

    /** Both flags default to `false` when not given. */
    constructor (initialSelected: Option<bool>, hasOnChange: bool, disabled: Option<bool>)
      ensures selected == initialSelected.GetOr(false) && this.hasOnChange == hasOnChange
      ensures this.disabled == disabled.GetOr(false)
      ensures notifications == []
    {
      selected := initialSelected.GetOr(false);
      this.hasOnChange := hasOnChange;
      this.disabled := disabled.GetOr(false);
      notifications := [];
    }

    /** What `onChange?.(next)` adds to the log. */
    function Notified(next: bool): (log: seq<bool>)
      reads this
      ensures hasOnChange ==> log == notifications + [next]
      ensures !hasOnChange ==> log == notifications
    {
      if hasOnChange then notifications + [next] else notifications
    }

    /** `setSelected(next)`: sets and notifies, even when disabled or unchanged. */
    method SetSelected(next: bool)
      modifies this`selected, this`notifications
      ensures selected == next
      ensures notifications == old(Notified(next))
    {
      selected := next;
      notifications := Notified(next);
    }

    /** `toggle()`: a no-op when disabled; otherwise flips and notifies the new value. */
    method Toggle()
      modifies this`selected, this`notifications
      ensures disabled ==> selected == old(selected) && notifications == old(notifications)
      ensures !disabled ==> selected == !old(selected) && notifications == old(Notified(!selected))
    {
      if disabled {
        return;
      }
      var next := !selected;
      notifications := Notified(next);
      selected := next;
    }

    /** `select()`: a no-op when disabled or already selected; otherwise selects and notifies `true`. */
    method Select()
      modifies this`selected, this`notifications
      ensures disabled || old(selected) ==> selected == old(selected) && notifications == old(notifications)
      ensures !disabled && !old(selected) ==> selected && notifications == old(Notified(true))
      ensures !disabled ==> selected
    {
      if disabled || selected {
        return;
      }
      selected := true;
      notifications := Notified(true);
    }

    /** `unselect()`: a no-op when disabled or not selected; otherwise unselects and notifies `false`. */
    method Unselect()
      modifies this`selected, this`notifications
      ensures disabled || !old(selected) ==> selected == old(selected) && notifications == old(notifications)
      ensures !disabled && old(selected) ==> !selected && notifications == old(Notified(false))
      ensures !disabled ==> !selected
    {
      if disabled || !selected {
        return;
      }
      selected := false;
      notifications := Notified(false);
    }

    /** `getButtonProps()`: button role, focusable, and the pressed state in both attributes. */
    function Props(): (p: ButtonProps)
      reads this
      ensures p.role == "button" && p.tabIndex == 0
      ensures p.ariaPressed == selected
      ensures p.dataSelected == "true" <==> p.ariaPressed
    {
      ButtonProps("button", 0, selected, DataSelected(selected))
    }

    /** The `onClick` handler: toggles. */
    method Click()
      modifies this`selected, this`notifications
      ensures disabled ==> selected == old(selected) && notifications == old(notifications)
      ensures !disabled ==> selected == !old(selected) && notifications == old(Notified(!selected))
    {
      Toggle();
    }

    /**
     * The `onKeyDown` handler: Space and Enter have their default action
     * prevented (even when disabled) and toggle; other keys do nothing.
     */
    method KeyDown(key: string) returns (prevented: bool)
      modifies this`selected, this`notifications
      ensures prevented <==> IsActivationKey(key)
      ensures !prevented || disabled ==> selected == old(selected) && notifications == old(notifications)
      ensures prevented && !disabled ==> selected == !old(selected) && notifications == old(Notified(!selected))
    {
      prevented := key == " " || key == "Enter";
      if prevented {
        Toggle();
      }
    }
  }

  /**
   * Two clicks on an enabled card come back to the start and report both
   * changes; on a disabled card they change nothing, while `setSelected`
   * still goes through.
   */
  method ClickTwiceScenario()
  {
    var card := new CardSelection(None, true, None);
    card.Click();
    assert card.selected && card.Props().dataSelected == "true";
    card.Click();
    assert !card.selected && card.notifications == [true, false];

    var locked := new CardSelection(Some(false), true, Some(true));
    locked.Click();
    var prevented := locked.KeyDown("Enter");
    assert prevented && !locked.selected && locked.notifications == [];
    locked.SetSelected(true);
    assert locked.selected && locked.notifications == [true];
  }
}
