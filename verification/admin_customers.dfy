/**
 * The customer-status mutation of src/pages/admin/AdminCustomers.tsx, composed with the
 * status switch: the switch hands it `{id, isActive}`, and it sends the customer update.
 */
module AdminCustomers {
  import StatusToggle

  /** The `isActive` the server is asked to store, as written: the payload's value negated. */
  function SentStatusAsWritten(payload: StatusToggle.StatusPayload): bool
  {
    !payload.isActive
  }

  /**
   * As written, confirming the switch on a customer asks the server to store the status the
   * customer already has, while the switch shows the opposite one.
   */
  lemma ServerReceivesOldStatus(s: StatusToggle.StatusState, id: string)
    requires !s.isPending
    ensures var (r, payload) := StatusToggle.ConfirmSwitch(StatusToggle.ClickSwitch(s), id);
      SentStatusAsWritten(payload) == s.status && r.status != SentStatusAsWritten(payload)
  {
    StatusToggle.ConfirmedToggleSendsNewStatus(s, id);
  }

  /** An active customer being deactivated: the server is told `isActive: true`. */
  lemma DeactivatingActiveCustomerSendsTrue()
    ensures var s := StatusToggle.Mount(true);
      var (r, payload) := StatusToggle.ConfirmSwitch(StatusToggle.ClickSwitch(s), "1");
      !r.status && SentStatusAsWritten(payload)
  {
    ServerReceivesOldStatus(StatusToggle.Mount(true), "1");
  }

  /** The corrected update: the payload's `isActive` is sent as it is. */
  function SentStatus(payload: StatusToggle.StatusPayload): bool
  {
    payload.isActive
  }

  /** With the correction, the server stores exactly the status the switch now shows. */
  lemma ServerReceivesShownStatus(s: StatusToggle.StatusState, id: string)
    requires !s.isPending
    ensures var (r, payload) := StatusToggle.ConfirmSwitch(StatusToggle.ClickSwitch(s), id);
      SentStatus(payload) == r.status && SentStatus(payload) == !s.status
  {
    StatusToggle.ConfirmedToggleSendsNewStatus(s, id);
  }
}
