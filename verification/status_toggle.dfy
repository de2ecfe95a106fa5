/**
 * The status switch of src/components/admin/StatusToggle.tsx: a `ToggleSwitch` that always asks
 * for confirmation, a local `status` seeded from the `isActive` prop, and a mutation that is
 * fired with `{id, isActive: !status}` where `status` is the value before the toggle.
 */
module StatusToggle {
  import opened Wrappers
  import ToggleSwitch

  /** The mutation's argument. */
  datatype StatusPayload = StatusPayload(id: string, isActive: bool)

  datatype StatusState = StatusState(status: bool, isPending: bool, switchState: ToggleSwitch.ToggleState)

  /** Mounting with the `isActive` prop. */
  function Mount(isActive: bool): (s: StatusState)
    ensures s.status == isActive && !s.isPending && !s.switchState.showConfirmation
  {
    StatusState(isActive, false, ToggleSwitch.Initial)
  }

  /** The props StatusToggle passes to the switch: disabled while pending, confirmation always on. */
  function SwitchProps(s: StatusState): (p: ToggleSwitch.Props)
    ensures p.disabled <==> s.isPending
    ensures p.confirmationRequired && p.isActive == s.status
  {
    ToggleSwitch.Props(s.status, s.isPending, true)
  }

  /** The dialog title. */
  function Title(s: StatusState, entityName: string): (t: string)
    ensures s.status ==> t == "Deactivate " + entityName
    ensures !s.status ==> t == "Activate " + entityName
  {
    (if s.status then "Deactivate" else "Activate") + " " + entityName
  }

  /** `handleToggle(newStatus)`: the local status becomes `newStatus`; the payload negates the old one. */
  function HandleToggle(s: StatusState, id: string, newStatus: bool): (r: (StatusState, StatusPayload))
    ensures r.0.status == newStatus && r.0.isPending && r.0.switchState == s.switchState
    ensures r.1 == StatusPayload(id, !s.status)
  {
    (s.(status := newStatus, isPending := true), StatusPayload(id, !s.status))
  }

  /** The mutation settles; the switch is enabled again. */
  function Settle(s: StatusState): StatusState
  {
    s.(isPending := false)
  }

  /** Clicking the switch: it only opens the dialog (or does nothing while pending). */
  function ClickSwitch(s: StatusState): StatusState
  {
    s.(switchState := ToggleSwitch.Click(s.switchState, SwitchProps(s)).0)
  }

  /** Confirming the dialog: the switch reports its pending state to `handleToggle`. */
  function ConfirmSwitch(s: StatusState, id: string): (StatusState, StatusPayload)
  {
    var (t, newStatus) := ToggleSwitch.Confirm(s.switchState);
    HandleToggle(s.(switchState := t), id, newStatus)
  }

  /**
   * Click and confirm on an idle switch: the status flips, the mutation is pending, and the
   * payload carries the new status (the negation of the old one). While a mutation is pending a
   * click does nothing, so no second mutation can be confirmed from a fresh click.
   */
  lemma ConfirmedToggleSendsNewStatus(s: StatusState, id: string)
    requires !s.isPending
    ensures var (r, payload) := ConfirmSwitch(ClickSwitch(s), id);
      && r.status == !s.status && r.isPending && !r.switchState.showConfirmation
      && payload == StatusPayload(id, r.status)
    ensures s.(isPending := true) == ClickSwitch(s.(isPending := true))
  {
  }

  /** The component, with its state in fields and the fired mutations in `sent`. */
  class StatusToggleComponent {
    const id: string
    var status: bool
    var isPending: bool
    const switchComponent: ToggleSwitch.Switch
    var sent: seq<StatusPayload>

    function State(): StatusState
      reads this, switchComponent
    {
      StatusState(status, isPending, switchComponent.State())
    }

    constructor (id: string, isActive: bool)
      ensures this.id == id && State() == Mount(isActive) && sent == []
      ensures fresh(switchComponent)
    {
      this.id := id;
      status := isActive;
      isPending := false;
      sent := [];
      switchComponent := new ToggleSwitch.Switch();
    }

    method Click()
      modifies switchComponent
      ensures State() == ClickSwitch(old(State())) && sent == old(sent)
    {
      var ignored := switchComponent.HandleClick(ToggleSwitch.Props(status, isPending, true));
    }

    method Confirm()
      modifies this, switchComponent
      ensures var (r, payload) := ConfirmSwitch(old(State()), id);
        State() == r && sent == old(sent) + [payload]
    {
      var newStatus := switchComponent.HandleConfirm();
      sent := sent + [StatusPayload(id, !status)];
      status := newStatus;
      isPending := true;
    }

    method MutationSettled()
      modifies this
      ensures State() == Settle(old(State())) && sent == old(sent)
    {
      isPending := false;
    }
  }
}
