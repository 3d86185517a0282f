/** Domain events exchanged by the order, catalog and payment services. */
module Events {
  import opened Orders
  import opened Inventory

  /** Why a PaymentFailed was written. */
  datatype FailureCause = AuthorizationDeclined | CaptureDeclined | RetriesExhausted

  datatype Event =
    | OrderCreated(order: nat, items: seq<Item>, total: int, currency: string)
    | OrderConfirmed(order: nat)
    | OrderCancelled(order: nat)
    | InventoryReservedEvent(order: nat, lines: seq<Line>, total: int, currency: string)
    | InventoryReservationFailed(order: nat)
    | PaymentAuthorizedEvent(order: nat)
    | PaymentFailed(order: nat, cause: FailureCause)
    | PaymentCaptured(order: nat)
    | PaymentVoided(order: nat)
    | PaymentTimedOut(order: nat)
    | CaptureRetryRequested(order: nat, count: nat)
}
