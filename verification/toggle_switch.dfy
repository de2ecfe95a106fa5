/**
 * The switch of src/components/ui/ToggleSwitch.tsx. Its own state is whether the confirmation
 * dialog is open and the state a confirmation would apply; `isActive`, `disabled` and
 * `confirmationRequired` are props the parent passes on each render. Each handler reports the
 * value it passes to `onToggle`, or `None` when it does not call it.
 */
module ToggleSwitch {
  import opened Wrappers

  datatype ToggleState = ToggleState(showConfirmation: bool, pendingState: bool)

  datatype Props = Props(isActive: bool, disabled: bool, confirmationRequired: bool)

  const Initial := ToggleState(false, false)

  /** `handleClick`. */
  function Click(st: ToggleState, props: Props): (r: (ToggleState, Option<bool>))
    ensures props.disabled ==> r == (st, None)
    ensures !props.disabled && props.confirmationRequired ==> r == (ToggleState(true, !props.isActive), None)
    ensures !props.disabled && !props.confirmationRequired ==> r == (st, Some(!props.isActive))
  {
    if props.disabled then (st, None)
    else if props.confirmationRequired then (st.(pendingState := !props.isActive, showConfirmation := true), None)
    else (st, Some(!props.isActive))
  }

  /** `handleConfirm`: `onToggle(pendingState)`, then the dialog closes. */
  function Confirm(st: ToggleState): (r: (ToggleState, bool))
    ensures r.0 == ToggleState(false, st.pendingState) && r.1 == st.pendingState
  {
    (st.(showConfirmation := false), st.pendingState)
  }

  /** `handleCancel`: the dialog closes; `pendingState` is kept. */
  function Cancel(st: ToggleState): (r: ToggleState)
    ensures r == ToggleState(false, st.pendingState)
  {
    st.(showConfirmation := false)
  }

  /**
   * With or without a confirmation step, an enabled switch ends up calling `onToggle` once with
   * the negation of `isActive`: directly on click, or on confirm after the click opened the dialog.
   * Cancelling instead never calls it.
   */
  lemma ConfirmedClickToggles(st: ToggleState, props: Props)
    requires !props.disabled
    ensures !props.confirmationRequired ==> Click(st, props).1 == Some(!props.isActive)
    ensures props.confirmationRequired ==>
      && Click(st, props).1 == None && Click(st, props).0.showConfirmation
      && Confirm(Click(st, props).0).1 == !props.isActive
      && !Confirm(Click(st, props).0).0.showConfirmation
      && Cancel(Click(st, props).0) == ToggleState(false, !props.isActive)
  {
  }

  /** The dialog's variant: "info" when confirming would activate, "warning" otherwise. */
  function Variant(st: ToggleState): (v: string)
    ensures v == "info" <==> st.pendingState
    ensures v == "warning" <==> !st.pendingState
  {
    if st.pendingState then "info" else "warning"
  }

  datatype SizeClasses = SizeClasses(switchClass: string, dot: string, translate: string)

  const Small := SizeClasses("w-8 h-4", "h-3 w-3", "translate-x-4")
  const Medium := SizeClasses("w-11 h-6", "h-5 w-5", "translate-x-5")
  const Large := SizeClasses("w-14 h-7", "h-6 w-6", "translate-x-7")

  /** `getSizeClasses`: "sm" and "lg" have their own classes; every other size falls back to "md". */
  function GetSizeClasses(size: string): (r: SizeClasses)
    ensures r in {Small, Medium, Large}
    ensures r == Small <==> size == "sm"
    ensures r == Large <==> size == "lg"
  {
    match size
    case "sm" => Small
    case "lg" => Large
    case _ => Medium
  }

  /** The switch with its state held in fields, as React holds it between renders. */
  class Switch {
    var showConfirmation: bool
    var pendingState: bool

    function State(): ToggleState
      reads this
    {
      ToggleState(showConfirmation, pendingState)
    }

    constructor ()
      ensures State() == Initial
    {
      showConfirmation := false;
      pendingState := false;
    }

    method HandleClick(props: Props) returns (toggled: Option<bool>)
      modifies this
      ensures (State(), toggled) == Click(old(State()), props)
    {
      toggled := None;
      if props.disabled {
        return;
      }
      if props.confirmationRequired {
        pendingState := !props.isActive;
        showConfirmation := true;
      } else {
        toggled := Some(!props.isActive);
      }
    }

    method HandleConfirm() returns (toggled: bool)
      modifies this
      ensures (State(), toggled) == Confirm(old(State()))
    {
      toggled := pendingState;
      showConfirmation := false;
    }

    method HandleCancel()
      modifies this
      ensures State() == Cancel(old(State()))
    {
      showConfirmation := false;
    }
  }
}
