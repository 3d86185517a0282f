/** The order service: order rows, event handlers, creation and buyer cancellation. */
module OrderService {
  import opened Common
  import opened Orders
  import opened Events

  /** An order row. `history` records every status the row has had, oldest first. */
  datatype Order = Order(status: OrderStatus, history: seq<OrderStatus>, items: seq<Item>, total: int, currency: string)

  datatype OrderError = OrderNotFound | Refused(error: TransitionError) | NotCreatable

  datatype Written = Written(orders: map<nat, Order>, event: Option<Event>)

  function SetStatus(order: Order, s: OrderStatus): Order {
    order.(status := s, history := order.history + [s])
  }

  function Create(orders: map<nat, Order>, id: nat, items: seq<Item>, currency: string): Result<Written, OrderError> {
    if id in orders || !Creatable(items, currency) then Err(NotCreatable)
    else
      Ok(Written(orders[id := Order(Pending, [Pending], items, OrderValue(items), currency)],
                 Some(OrderCreated(id, items, OrderValue(items), currency))))
  }

  /** Check the transition, then move the row; `event` is written in the same transaction. */
  function Move(orders: map<nat, Order>, id: nat, target: OrderStatus,
                event: Option<Event>): Result<Written, OrderError> {
    if id !in orders then Err(OrderNotFound)
    else
      match TransitionTo(orders[id].status, target)
      case Err(e) => Err(Refused(e))
      case Ok(s) => Ok(Written(orders[id := SetStatus(orders[id], s)], event))
  }

  /** PaymentAuthorized: enter that status, then confirm at once and write OrderConfirmed. */
  function AuthorizeAndConfirm(orders: map<nat, Order>, id: nat): Result<Written, OrderError> {
    match Move(orders, id, PaymentAuthorized, None)
    case Err(e) => Err(e)
    case Ok(w) => Ok(Written(w.orders[id := SetStatus(w.orders[id], Confirmed)], Some(OrderConfirmed(id))))
  }

  function Cancel(orders: map<nat, Order>, id: nat): Result<Written, OrderError> {
    Move(orders, id, Cancelled, Some(OrderCancelled(id)))
  }

  function Handle(orders: map<nat, Order>, e: Event): Result<Written, OrderError> {
    match e
    case InventoryReservedEvent(o, _, _, _) => Move(orders, o, InventoryReserved, None)
    case InventoryReservationFailed(o) => Move(orders, o, Cancelled, None)
    case PaymentAuthorizedEvent(o) => AuthorizeAndConfirm(orders, o)
    case PaymentFailed(o, _) => Cancel(orders, o)
    case PaymentTimedOut(o) => Cancel(orders, o)
    case _ => Ok(Written(orders, None))
  }

  // ── Which event leads to what ───────────────────────────────

  /** The order's row alone moves to `status`, and `event` is written. */
  predicate MovesTo(orders: map<nat, Order>, r: Result<Written, OrderError>, o: nat, status: OrderStatus,
                    event: Option<Event>)
    requires o in orders
  {
    && r.Ok? && r.value.event == event && r.value.orders.Keys == orders.Keys
    && r.value.orders[o].status == status
    && r.value.orders[o].(status := orders[o].status, history := orders[o].history) == orders[o]
    && (forall p | p in orders && p != o :: r.value.orders[p] == orders[p])
  }

  /**
   * Every event the order service handles, by the order's status: InventoryReserved takes a pending order
   * on; a failed reservation cancels without an event; PaymentAuthorized confirms a reserved order and
   * announces it; PaymentFailed and PaymentTimedOut cancel and announce it. Each is refused in any other
   * status, and all other events are ignored.
   */
  lemma HandleDecides(orders: map<nat, Order>, e: Event)
    requires e.order in orders
    ensures var o := e.order;
            var r := Handle(orders, e);
            var cancellable := orders[o].status in {Pending, InventoryReserved, PaymentAuthorized, Confirmed, Shipped};
            match e
            case InventoryReservedEvent(_, _, _, _) =>
              && (r.Ok? <==> orders[o].status == Pending)
              && (r.Ok? ==> MovesTo(orders, r, o, InventoryReserved, None))
            case InventoryReservationFailed(_) =>
              (r.Ok? <==> cancellable) && (r.Ok? ==> MovesTo(orders, r, o, Cancelled, None))
            case PaymentAuthorizedEvent(_) =>
              && (r.Ok? <==> orders[o].status == InventoryReserved)
              && (r.Ok? ==> MovesTo(orders, r, o, Confirmed, Some(OrderConfirmed(o))))
            case PaymentFailed(_, _) =>
              (r.Ok? <==> cancellable) && (r.Ok? ==> MovesTo(orders, r, o, Cancelled, Some(OrderCancelled(o))))
            case PaymentTimedOut(_) =>
              (r.Ok? <==> cancellable) && (r.Ok? ==> MovesTo(orders, r, o, Cancelled, Some(OrderCancelled(o))))
            case _ => r == Ok(Written(orders, None))
  {
  }

  /** The buyer's cancel does what a failed payment does. */
  lemma CancelDecides(orders: map<nat, Order>, o: nat)
    requires o in orders
    ensures var r := Cancel(orders, o);
            && (r.Ok? <==> CanCancel(orders[o].status))
            && (r.Ok? ==> MovesTo(orders, r, o, Cancelled, Some(OrderCancelled(o))))
  {
  }

  /** The rows and outbox as the service updates them. */
  class OrderTables {
    var orders: map<nat, Order>
    var outbox: seq<Event>
    var keys: map<string, nat>   // the unique idempotency keys, each with its order

    constructor ()
      ensures orders == map[] && outbox == [] && keys == map[] && KeysOk()
    {
      orders, outbox, keys := map[], [], map[];
    }

    /** Every key names an order of the table, and no two keys the same one. */
    ghost predicate KeysOk()
      reads this
    {
      && (forall k | k in keys :: keys[k] in orders)
      && (forall k1, k2 | k1 in keys && k2 in keys && keys[k1] == keys[k2] :: k1 == k2)
    }

    ghost predicate Did(spec: Result<Written, OrderError>, before: map<nat, Order>, sent: seq<Event>, ok: bool)
      reads this
    {
      && (ok <==> spec.Ok?)
      && orders == (if spec.Ok? then spec.value.orders else before)
      && outbox == sent + (if spec.Ok? && spec.value.event.Some? then [spec.value.event.value] else [])
    }

    /**
     * A creatable request under a key used before returns that key's order and changes nothing; under a
     * new key it creates the order and binds the key to it. A request that is not creatable is refused.
     */
    method CreateOrder(key: string, id: nat, items: seq<Item>, currency: string) returns (r: Result<nat, OrderError>)
      requires KeysOk()
      modifies this
      ensures KeysOk()
      ensures !Creatable(items, currency) || key in old(keys) ==>
                orders == old(orders) && outbox == old(outbox) && keys == old(keys)
      ensures !Creatable(items, currency) ==> r == Err(NotCreatable)
      ensures Creatable(items, currency) && key in old(keys) ==> r == Ok(old(keys)[key])
      ensures Creatable(items, currency) && key !in old(keys) ==>
                && Did(Create(old(orders), id, items, currency), old(orders), old(outbox), r.Ok?)
                && (r.Ok? ==> r.value == id && keys == old(keys)[key := id])
                && (r.Err? ==> keys == old(keys))
    {
      var validated := ValidateRequest(items);
      if validated.Err? || !Creatable(items, currency) {
        return Err(NotCreatable);
      }
      if key in keys {
        return Ok(keys[key]);
      }
      if id in orders {
        return Err(NotCreatable);
      }
      var total := validated.value.1;
      orders := orders[id := Order(Pending, [Pending], items, total, currency)];
      keys := keys[key := id];
      outbox := outbox + [OrderCreated(id, items, total, currency)];
      return Ok(id);
    }

    method UpdateOrderStatus(id: nat, s: OrderStatus)
      requires id in orders
      modifies this`orders
      ensures orders == old(orders)[id := SetStatus(old(orders)[id], s)]
    {
      orders := orders[id := orders[id].(status := s, history := orders[id].history + [s])];
    }

    method HandleInventoryReserved(id: nat) returns (r: Result<(), OrderError>)
      modifies this`orders, this`outbox
      ensures Did(Move(old(orders), id, InventoryReserved, None), old(orders), old(outbox), r.Ok?)
    {
      if id !in orders {
        return Err(OrderNotFound);
      }
      var next := TransitionTo(orders[id].status, InventoryReserved);
      if next.Err? {
        return Err(Refused(next.error));
      }
      UpdateOrderStatus(id, InventoryReserved);
      return Ok(());
    }

    method HandleReservationFailed(id: nat) returns (r: Result<(), OrderError>)
      modifies this`orders, this`outbox
      ensures Did(Move(old(orders), id, Cancelled, None), old(orders), old(outbox), r.Ok?)
    {
      if id !in orders {
        return Err(OrderNotFound);
      }
      var next := TransitionTo(orders[id].status, Cancelled);
      if next.Err? {
        return Err(Refused(next.error));
      }
      UpdateOrderStatus(id, Cancelled);
      return Ok(());
    }

    method HandlePaymentAuthorized(id: nat) returns (r: Result<(), OrderError>)
      modifies this`orders, this`outbox
      ensures Did(AuthorizeAndConfirm(old(orders), id), old(orders), old(outbox), r.Ok?)
    {
      if id !in orders {
        return Err(OrderNotFound);
      }
      var next := TransitionTo(orders[id].status, PaymentAuthorized);
      if next.Err? {
        return Err(Refused(next.error));
      }
      UpdateOrderStatus(id, PaymentAuthorized);
      UpdateOrderStatus(id, Confirmed);
      outbox := outbox + [OrderConfirmed(id)];
      return Ok(());
    }

    /** PaymentFailed and PaymentTimedOut. */
    method CancelOnPaymentFailure(id: nat) returns (r: Result<(), OrderError>)
      modifies this`orders, this`outbox
      ensures Did(Cancel(old(orders), id), old(orders), old(outbox), r.Ok?)
    {
      if id !in orders {
        return Err(OrderNotFound);
      }
      var next := TransitionTo(orders[id].status, Cancelled);
      if next.Err? {
        return Err(Refused(next.error));
      }
      UpdateOrderStatus(id, Cancelled);
      outbox := outbox + [OrderCancelled(id)];
      return Ok(());
    }

    /** The buyer's request: cancellation rule first, then the transition; both say the same. */
    method CancelOrder(id: nat) returns (r: Result<(), OrderError>)
      modifies this`orders, this`outbox
      ensures Did(Cancel(old(orders), id), old(orders), old(outbox), r.Ok?)
    {
      if id !in orders {
        return Err(OrderNotFound);
      }
      var status := orders[id].status;
      if !CanCancel(status) || TransitionTo(status, Cancelled).Err? {
        return Err(Refused(InvalidTransition(status, Cancelled)));
      }
      UpdateOrderStatus(id, Cancelled);
      outbox := outbox + [OrderCancelled(id)];
      return Ok(());
    }
  }
}
