/** Order history: what every run of the saga keeps about order statuses and order events. */
module SagaHistory {
  import opened Common
  import opened Orders
  import opened Events
  import opened Saga

  type Rows = map<nat, OrderService.Order>

  predicate Entered(orders: Rows, o: nat, s: OrderStatus) {
    o in orders && s in orders[o].history
  }

  /** The row of `o` agrees with its history, and the log with the row. */
  ghost predicate HistoryOf(orders: Rows, log: seq<Event>, o: nat) {
    && (o in orders ==>
          && IsPath(orders[o].history)
          && orders[o].status == orders[o].history[|orders[o].history| - 1])
    && Count(log, KCreated, o) == (if o in orders then 1 else 0)
    && Count(log, KConfirmed, o) == (if Entered(orders, o, OrderStatus.Confirmed) then 1 else 0)
    && Count(log, KCancelled, o) <= (if Entered(orders, o, Cancelled) then 1 else 0)
    && (First(log, KConfirmed, o) >= 0 && First(log, KCancelled, o) >= 0 ==>
          First(log, KConfirmed, o) < First(log, KCancelled, o))
  }

  ghost predicate HistoryInv(s: State) {
    forall o: nat :: HistoryOf(s.orders, s.log, o)
  }

  /** A status of higher or equal rank than the current one, other than the current one, was never entered. */
  lemma NotYetEntered(row: OrderService.Order, s: OrderStatus)
    requires IsPath(row.history) && row.status == row.history[|row.history| - 1]
    requires Rank(row.status) <= Rank(s) && row.status != s
    ensures s !in row.history
  {
    var n := |row.history| - 1;
    if i :| 0 <= i < n && row.history[i] == s {
      PathRises(row.history, i, n);
    }
  }

  lemma MoveKeepsHistory(orders: Rows, log: seq<Event>, id: nat, target: OrderStatus, event: Option<Event>, o: nat)
    requires HistoryOf(orders, log, o)
    requires OrderService.Move(orders, id, target, event).Ok? && target != OrderStatus.Confirmed
    requires event == None || (target == Cancelled && event == Some(OrderCancelled(id)))
    ensures HistoryOf(OrderService.Move(orders, id, target, event).value.orders, Append(log, event), o)
  {
    if id == o && target == Cancelled {
      NotYetEntered(orders[o], Cancelled);
    }
    if event.Some? {
      CancelledInLog(log, id, o);
    }
  }

  /** What appending OrderCancelled does to the counts. */
  lemma CancelledInLog(log: seq<Event>, id: nat, o: nat)
    ensures var log' := log + [OrderCancelled(id)];
            && Count(log', KCreated, o) == Count(log, KCreated, o)
            && Count(log', KConfirmed, o) == Count(log, KConfirmed, o)
            && Count(log', KCancelled, o) == Count(log, KCancelled, o) + (if id == o then 1 else 0)
            && First(log', KConfirmed, o) == First(log, KConfirmed, o) < |log|
            && First(log', KCancelled, o)
               == if First(log, KCancelled, o) >= 0 then First(log, KCancelled, o) else if id == o then |log| else -1
  {
    FirstAppend(log, OrderCancelled(id), KCreated, o);
    FirstAppend(log, OrderCancelled(id), KConfirmed, o);
    FirstAppend(log, OrderCancelled(id), KCancelled, o);
    FirstIsFirst(log, KConfirmed, o);
  }

  lemma ConfirmKeepsHistory(orders: Rows, log: seq<Event>, id: nat, o: nat)
    requires HistoryOf(orders, log, o) && OrderService.AuthorizeAndConfirm(orders, id).Ok?
    ensures HistoryOf(OrderService.AuthorizeAndConfirm(orders, id).value.orders, log + [OrderConfirmed(id)], o)
  {
    ConfirmedInLog(log, id, o);
    if id == o {
      NotYetEntered(orders[o], OrderStatus.Confirmed);
      NotYetEntered(orders[o], Cancelled);
    }
  }

  /** What appending OrderConfirmed does to the counts. */
  lemma ConfirmedInLog(log: seq<Event>, id: nat, o: nat)
    ensures var log' := log + [OrderConfirmed(id)];
            && Count(log', KCreated, o) == Count(log, KCreated, o)
            && Count(log', KCancelled, o) == Count(log, KCancelled, o)
            && Count(log', KConfirmed, o) == Count(log, KConfirmed, o) + (if id == o then 1 else 0)
            && First(log', KCancelled, o) == First(log, KCancelled, o)
            && (First(log, KCancelled, o) >= 0 <==> Count(log, KCancelled, o) > 0)
            && First(log', KConfirmed, o)
               == if First(log, KConfirmed, o) >= 0 then First(log, KConfirmed, o) else if id == o then |log| else -1
  {
    FirstAppend(log, OrderConfirmed(id), KCreated, o);
    FirstAppend(log, OrderConfirmed(id), KConfirmed, o);
    FirstAppend(log, OrderConfirmed(id), KCancelled, o);
    FirstIsFirst(log, KCancelled, o);
  }

  lemma CreateKeepsHistory(orders: Rows, log: seq<Event>, id: nat, items: seq<Item>, currency: string, o: nat)
    requires HistoryOf(orders, log, o) && OrderService.Create(orders, id, items, currency).Ok?
    ensures var w := OrderService.Create(orders, id, items, currency).value;
            HistoryOf(w.orders, Append(log, w.event), o)
  {
    var e := OrderService.Create(orders, id, items, currency).value.event.value;
    FirstAppend(log, e, KCreated, o);
    FirstAppend(log, e, KConfirmed, o);
    FirstAppend(log, e, KCancelled, o);
  }

  /** An event of another service's topic leaves order histories alone. */
  lemma ForeignEventKeepsHistory(orders: Rows, log: seq<Event>, e: Option<Event>, o: nat)
    requires HistoryOf(orders, log, o) && (e.Some? ==> TopicOf(e.value) != OrdersTopic)
    ensures HistoryOf(orders, Append(log, e), o)
  {
    if e.Some? {
      FirstAppend(log, e.value, KCreated, o);
      FirstAppend(log, e.value, KConfirmed, o);
      FirstAppend(log, e.value, KCancelled, o);
    }
  }

  lemma OrderHandlerKeepsHistory(orders: Rows, log: seq<Event>, e: Event, o: nat)
    requires HistoryOf(orders, log, o) && OrderService.Handle(orders, e).Ok?
    ensures var w := OrderService.Handle(orders, e).value;
            HistoryOf(w.orders, Append(log, w.event), o)
  {
    var w := OrderService.Handle(orders, e).value;
    match e {
      case InventoryReservedEvent(id, _, _, _) => MoveKeepsHistory(orders, log, id, InventoryReserved, None, o);
      case InventoryReservationFailed(id) => MoveKeepsHistory(orders, log, id, Cancelled, None, o);
      case PaymentAuthorizedEvent(id) => ConfirmKeepsHistory(orders, log, id, o);
      case PaymentFailed(id, _) => MoveKeepsHistory(orders, log, id, Cancelled, Some(OrderCancelled(id)), o);
      case PaymentTimedOut(id) => MoveKeepsHistory(orders, log, id, Cancelled, Some(OrderCancelled(id)), o);
      case _ =>
        assert w == OrderService.Written(orders, None);
    }
  }

  lemma CatalogWritesOwnTopic(st: Inventory.Stock, e: Event, db: CatalogService.DbAnswer)
    ensures var out := CatalogService.Handle(st, e, db).event;
            out.Some? ==> TopicOf(out.value) == CatalogTopic
  {
  }

  lemma PaymentWritesOwnTopic(b: Ledger.Books, e: Event, g: Payments.GatewayAnswer)
    requires Payments.Handle(b, e, g).Ok?
    ensures var out := Payments.Handle(b, e, g).value.event;
            out.Some? ==> TopicOf(out.value) == PaymentsTopic
  {
    if Payments.Handle(b, e, g).value.event.Some? {
      Payments.WrittenFor(b, e, g);
    }
  }

  lemma AttemptKeepsHistory(s: State, g: Group, e: Event, a: Answer, o: nat)
    requires HistoryOf(s.orders, s.log, o)
    ensures HistoryOf(Attempt(s, g, e, a).0.orders, Attempt(s, g, e, a).0.log, o)
  {
    match g {
      case OrderGroup =>
        if OrderService.Handle(s.orders, e).Ok? {
          OrderHandlerKeepsHistory(s.orders, s.log, e, o);
        }
      case CatalogGroup =>
        CatalogWritesOwnTopic(s.stock, e, a.db);
        ForeignEventKeepsHistory(s.orders, s.log, CatalogService.Handle(s.stock, e, a.db).event, o);
      case PaymentGroup =>
        if Payments.Handle(s.books, e, a.gateway).Ok? {
          PaymentWritesOwnTopic(s.books, e, a.gateway);
          ForeignEventKeepsHistory(s.orders, s.log, Payments.Handle(s.books, e, a.gateway).value.event, o);
        }
    }
  }

  lemma StepKeepsHistory(s: State, step: Step)
    requires HistoryInv(s)
    ensures HistoryInv(Apply(s, step))
  {
    forall o: nat ensures HistoryOf(Apply(s, step).orders, Apply(s, step).log, o) {
      assert HistoryOf(s.orders, s.log, o);
      match step {
        case CreateOrder(id, items, currency) =>
          if OrderService.Create(s.orders, id, items, currency).Ok? {
            CreateKeepsHistory(s.orders, s.log, id, items, currency, o);
          }
        case BuyerCancel(id) =>
          if OrderService.Cancel(s.orders, id).Ok? {
            MoveKeepsHistory(s.orders, s.log, id, Cancelled, Some(OrderCancelled(id)), o);
          }
        case TimeOut(id) => ForeignEventKeepsHistory(s.orders, s.log, Some(PaymentTimedOut(id)), o);
        case Deliver(g, i, a) =>
          if i < |s.log| {
            AttemptKeepsHistory(s, g, s.log[i], a, o);
          }
        case _ =>
      }
    }
  }

  /** Every state the saga can reach keeps the history invariant. */
  lemma {:induction false} RunKeepsHistory(steps: seq<Step>)
    ensures HistoryInv(Run(INITIAL, steps))
  {
    if steps != [] {
      RunKeepsHistory(steps[..|steps| - 1]);
      StepKeepsHistory(Run(INITIAL, steps[..|steps| - 1]), steps[|steps| - 1]);
    }
  }

  /**
   * Whatever is delivered, duplicated or reordered: each order's statuses form a path of the state
   * machine, at most one OrderConfirmed and one OrderCancelled are ever written for it, and no
   * OrderConfirmed comes after an OrderCancelled.
   */
  lemma OrderHistory(steps: seq<Step>, o: nat)
    ensures var s := Run(INITIAL, steps);
            && (o in s.orders ==>
                  && IsPath(s.orders[o].history)
                  && s.orders[o].status == s.orders[o].history[|s.orders[o].history| - 1])
            && Count(s.log, KConfirmed, o) <= 1
            && Count(s.log, KCancelled, o) <= 1
            && (forall i, j :: 0 <= i < j < |s.log| && s.log[j] == OrderConfirmed(o) ==> s.log[i] != OrderCancelled(o))
  {
    var s := Run(INITIAL, steps);
    RunKeepsHistory(steps);
    assert HistoryOf(s.orders, s.log, o);
    FirstIsFirst(s.log, KConfirmed, o);
    FirstIsFirst(s.log, KCancelled, o);
    if i, j :| 0 <= i < j < |s.log| && s.log[j] == OrderConfirmed(o) && s.log[i] == OrderCancelled(o) {
      assert Is(s.log[i], KCancelled, o) && Is(s.log[j], KConfirmed, o);
      TwoOccurrences(s.log, KConfirmed, o, First(s.log, KConfirmed, o), j);
    }
  }

  /** Two different positions count twice. */
  lemma {:induction false} TwoOccurrences(log: seq<Event>, k: Kind, o: nat, i: nat, j: nat)
    requires i < |log| && j < |log| && Is(log[i], k, o) && Is(log[j], k, o)
    ensures i != j ==> Count(log, k, o) >= 2
  {
    var n := |log| - 1;
    if i != j {
      if i < n && j < n {
        TwoOccurrences(log[..n], k, o, i, j);
      } else {
        var other := if i == n then j else i;
        FirstIsFirst(log[..n], k, o);
        assert Is(log[..n][other], k, o);
      }
    }
  }
}
