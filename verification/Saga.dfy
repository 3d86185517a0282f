/**
 * The ordering saga as one transition system over the order, catalog and payment services.
 * `log` lists every committed outbox event in commit order; an event's id is its position. A consumer
 * group may be handed any event of its topics at any time and any number of times.
 */
module Saga {
  import opened Common
  import opened Orders
  import opened Inventory
  import opened Events
  import Ledger
  import OrderService
  import CatalogService
  import Payments

  datatype Group = OrderGroup | CatalogGroup | PaymentGroup

  datatype Topic = OrdersTopic | CatalogTopic | PaymentsTopic

  datatype State = State(
    orders: map<nat, OrderService.Order>,
    stock: Stock,
    books: Ledger.Books,
    log: seq<Event>,
    processed: set<(Group, nat)>,  // idempotency markers
    settled: set<(Group, nat)>)    // deliveries that ended in a commit or on the dead-letter topic

  const INITIAL: State := State(map[], Stock(map[], []), Ledger.EMPTY, [], {}, {})

  function TopicOf(e: Event): Topic {
    if e.OrderCreated? || e.OrderConfirmed? || e.OrderCancelled? then OrdersTopic
    else if e.InventoryReservedEvent? || e.InventoryReservationFailed? then CatalogTopic
    else PaymentsTopic
  }

  predicate Subscribes(g: Group, t: Topic) {
    match g
    case OrderGroup => t == CatalogTopic || t == PaymentsTopic
    case CatalogGroup => t == OrdersTopic
    case PaymentGroup => true
  }

  /** What the environment answers during one delivery attempt. */
  datatype Answer = Answer(gateway: Payments.GatewayAnswer, db: CatalogService.DbAnswer)

  datatype Step =
    | CreateOrder(id: nat, items: seq<Item>, currency: string)
    | BuyerCancel(id: nat)
    | TimeOut(id: nat)
    | Admin(edit: AdminEdit)
    | ConfirmRow(row: nat)
    | Deliver(group: Group, event: nat, answer: Answer)
    | ForgetMarker(group: Group, event: nat)

  function Append(log: seq<Event>, e: Option<Event>): seq<Event> {
    if e.Some? then log + [e.value] else log
  }

  /** One handler attempt on an event that has no marker: new state, and whether it committed. */
  function Attempt(s: State, g: Group, e: Event, a: Answer): (State, bool) {
    match g
    case OrderGroup =>
      (match OrderService.Handle(s.orders, e)
       case Err(_) => (s, false)
       case Ok(w) => (s.(orders := w.orders, log := Append(s.log, w.event)), true))
    case CatalogGroup =>
      var w := CatalogService.Handle(s.stock, e, a.db);
      (s.(stock := w.stock, log := Append(s.log, w.event)), w.committed)
    case PaymentGroup =>
      (match Payments.Handle(s.books, e, a.gateway)
       case Err(_) => (s, false)
       case Ok(w) => (s.(books := w.books, log := Append(s.log, w.event)), true))
  }

  /** A committed attempt leaves its idempotency marker; every attempt settles the delivery. */
  function DeliverTo(s: State, g: Group, i: nat, a: Answer): State {
    if i >= |s.log| || !Subscribes(g, TopicOf(s.log[i])) || (g, i) in s.processed then s
    else
      var (s', committed) := Attempt(s, g, s.log[i], a);
      s'.(processed := if committed then s.processed + {(g, i)} else s.processed,
          settled := s.settled + {(g, i)})
  }

  function Apply(s: State, step: Step): State {
    match step
    case CreateOrder(id, items, currency) =>
      (match OrderService.Create(s.orders, id, items, currency)
       case Err(_) => s
       case Ok(w) => s.(orders := w.orders, log := Append(s.log, w.event)))
    case BuyerCancel(id) =>
      (match OrderService.Cancel(s.orders, id)
       case Err(_) => s
       case Ok(w) => s.(orders := w.orders, log := Append(s.log, w.event)))
    case TimeOut(id) => s.(log := s.log + [PaymentTimedOut(id)])
    case Admin(edit) =>
      (match Edit(s.stock, edit)
       case Err(_) => s
       case Ok(st) => s.(stock := st))
    case ConfirmRow(k) =>
      if k < |s.stock.rows| && s.stock.rows[k].status == Reserved && s.stock.rows[k].sku in s.stock.skus then
        (match ConfirmAt(s.stock, k)
         case Err(_) => s
         case Ok(st) => s.(stock := st))
      else s
    case Deliver(g, i, a) => DeliverTo(s, g, i, a)
    case ForgetMarker(g, i) => s.(processed := s.processed - {(g, i)})
  }

  function Run(s: State, steps: seq<Step>): State {
    if steps == [] then s else Apply(Run(s, steps[..|steps| - 1]), steps[|steps| - 1])
  }

  // ── Positions in the log ────────────────────────────────────

  datatype Kind =
    | KCreated | KConfirmed | KCancelled | KReserved | KReservationFailed
    | KAuthorized | KFailed | KCaptured | KVoided | KTimedOut | KRetry

  function KindOf(e: Event): Kind {
    match e
    case OrderCreated(_, _, _, _) => KCreated
    case OrderConfirmed(_) => KConfirmed
    case OrderCancelled(_) => KCancelled
    case InventoryReservedEvent(_, _, _, _) => KReserved
    case InventoryReservationFailed(_) => KReservationFailed
    case PaymentAuthorizedEvent(_) => KAuthorized
    case PaymentFailed(_, _) => KFailed
    case PaymentCaptured(_) => KCaptured
    case PaymentVoided(_) => KVoided
    case PaymentTimedOut(_) => KTimedOut
    case CaptureRetryRequested(_, _) => KRetry
  }

  predicate Is(e: Event, k: Kind, o: nat) {
    KindOf(e) == k && e.order == o
  }

  /** Position of the first event of kind `k` for order `o`, or -1. */
  function First(log: seq<Event>, k: Kind, o: nat): int {
    if log == [] then -1
    else
      var n := |log| - 1;
      var f := First(log[..n], k, o);
      if f >= 0 then f else if Is(log[n], k, o) then n else -1
  }

  /** Number of events of kind `k` for order `o`. */
  function Count(log: seq<Event>, k: Kind, o: nat): nat {
    if log == [] then 0
    else Count(log[..|log| - 1], k, o) + if Is(log[|log| - 1], k, o) then 1 else 0
  }

  lemma FirstAppend(log: seq<Event>, e: Event, k: Kind, o: nat)
    ensures First(log + [e], k, o)
         == if First(log, k, o) >= 0 then First(log, k, o) else if Is(e, k, o) then |log| else -1
    ensures Count(log + [e], k, o) == Count(log, k, o) + if Is(e, k, o) then 1 else 0
  {
    assert (log + [e])[..|log|] == log;
  }

  /** `First` is what its name says. */
  lemma {:induction false} FirstIsFirst(log: seq<Event>, k: Kind, o: nat)
    ensures -1 <= First(log, k, o) < |log|
    ensures First(log, k, o) >= 0 ==> Is(log[First(log, k, o)], k, o)
    ensures forall i :: 0 <= i < |log| && Is(log[i], k, o) ==> 0 <= First(log, k, o) <= i
    ensures First(log, k, o) >= 0 <==> Count(log, k, o) > 0
  {
    if log != [] {
      FirstIsFirst(log[..|log| - 1], k, o);
    }
  }

  lemma OccursSo(log: seq<Event>, i: nat)
    requires i < |log|
    ensures 0 <= First(log, KindOf(log[i]), log[i].order) <= i
  {
    FirstIsFirst(log, KindOf(log[i]), log[i].order);
  }
}
