/**
 * Runs in which no attempt has to be repeated: with approvals of the asked amount, granted voids, totals
 * within the authorization rules and PaymentAuthorized delivered after InventoryReserved, the first attempt
 * at every event consumes it. Consistency then holds as soon as every message has been attempted.
 */
module SagaSettled {
  import opened Orders
  import opened Events
  import opened Saga
  import opened SagaCausality
  import opened SagaStock
  import opened SagaQuiescence

  predicate Honest(s: State, step: Step) {
    match step
    case CreateOrder(_, items, _) => OrderValue(items) <= Payments.MAX_PAYMENT_AMOUNT
    case Deliver(g, i, a) =>
      i < |s.log| ==>
        && a.gateway.voidOk
        && (IsCreation(g, s.log[i]) ==> a.db.noteOk)
        && (s.log[i].InventoryReservedEvent? && a.gateway.auth.Approved? ==> a.gateway.auth.amount == s.log[i].total)
        && (g == OrderGroup && s.log[i].PaymentAuthorizedEvent? ==> Seen(s, OrderGroup, KReserved, s.log[i].order))
    case _ => true
  }

  ghost predicate HonestRun(steps: seq<Step>) {
    OrderlyRun(steps) && forall n :: 0 <= n < |steps| ==> Honest(Run(INITIAL, steps[..n]), steps[n])
  }

  /** Every attempted event is consumed. */
  ghost predicate AttemptsCount(s: State) {
    forall g: Group, i: nat :: i < |s.log| && (g, i) in s.settled && Subscribes(g, TopicOf(s.log[i])) ==> Done(s, g, i)
  }

  predicate Payable(order: OrderService.Order) {
    && Creatable(order.items, order.currency)
    && order.total == OrderValue(order.items) <= Payments.MAX_PAYMENT_AMOUNT
  }

  predicate AllPayable(s: State) {
    forall o | o in s.orders :: Payable(s.orders[o])
  }

  // ── Orders keep their data ──────────────────────────────────

  lemma HandlerKeepsPayable(orders: map<nat, OrderService.Order>, e: Event)
    requires OrderService.Handle(orders, e).Ok? && forall o | o in orders :: Payable(orders[o])
    ensures var w := OrderService.Handle(orders, e).value;
            forall o | o in w.orders :: Payable(w.orders[o])
  {
  }

  lemma StepKeepsPayable(s: State, step: Step)
    requires AllPayable(s) && Orderly(s, step) && Honest(s, step)
    ensures AllPayable(Apply(s, step))
  {
    if step.Deliver? && step.group == OrderGroup && step.event < |s.log| {
      if OrderService.Handle(s.orders, s.log[step.event]).Ok? {
        HandlerKeepsPayable(s.orders, s.log[step.event]);
      }
    }
  }

  // ── The first attempt commits ───────────────────────────────

  lemma PaymentCommits(s: State, i: nat, a: Answer)
    requires PhaseInv(s) && AllPayable(s) && i < |s.log| && (PaymentGroup, i) !in s.processed
    requires Honest(s, Deliver(PaymentGroup, i, a))
    ensures Payments.Handle(s.books, s.log[i], a.gateway).Ok?
  {
    assert InPhase(s, i);
    match s.log[i] {
      case InventoryReservedEvent(o, _, _, _) =>
        assert PayloadOk(s.orders, s.log[i]);
        AuthorizationCommits(s, i, a);
      case OrderConfirmed(_) => PaymentAnswers(s, i, a);
      case CaptureRetryRequested(_, _) => PaymentAnswers(s, i, a);
      case OrderCancelled(o) => VoidAnswers(s.books, o, a.gateway);
      case _ =>
    }
  }

  lemma AuthorizationCommits(s: State, i: nat, a: Answer)
    requires InPhase(s, i) && s.log[i].InventoryReservedEvent? && (PaymentGroup, i) !in s.processed
    requires Ledger.Shaped(s.books) && PayloadOk(s.orders, s.log[i]) && AllPayable(s)
    requires Honest(s, Deliver(PaymentGroup, i, a))
    ensures Payments.Handle(s.books, s.log[i], a.gateway).Ok?
  {
    var e := s.log[i];
    NotSeenYet(s, PaymentGroup, i);
    assert Ledger.StateOf(s.books, e.order) == Ledger.New;
    assert Payable(s.orders[e.order]);
    Payments.NewHasNoLiveAuthorization(s.books, e.order);
    if a.gateway.auth.Approved? {
      Ledger.AuthorizationAdvances(s.books, e.order, e.total, e.currency, a.gateway.auth.gatewayRef);
    }
  }

  lemma OrderCommits(s: State, i: nat, a: Answer)
    requires PhaseInv(s) && NoTimeouts(s) && i < |s.log| && (OrderGroup, i) !in s.processed
    requires Subscribes(OrderGroup, TopicOf(s.log[i])) && !IsFinal(OrderGroup, s.log[i])
    requires Honest(s, Deliver(OrderGroup, i, a))
    ensures OrderService.Handle(s.orders, s.log[i]).Ok?
  {
    assert InPhase(s, i);
    match s.log[i] {
      case PaymentAuthorizedEvent(_) => OrderAuthorized(s, i, a);
      case PaymentFailed(_, _) => OrderFailed(s, i, a);
      case _ =>
    }
  }

  lemma CreationAnswered(s: State, i: nat, a: Answer)
    requires i < |s.log| && (CatalogGroup, i) !in s.processed && Subscribes(CatalogGroup, TopicOf(s.log[i]))
    requires Honest(s, Deliver(CatalogGroup, i, a))
    ensures Done(DeliverTo(s, CatalogGroup, i, a), CatalogGroup, i)
  {
    var s' := DeliverTo(s, CatalogGroup, i, a);
    var e := s.log[i];
    assert s'.log[i] == e;
    if e.OrderCreated? && (CatalogGroup, i) !in s'.processed {
      assert s'.log == s.log + [InventoryReservationFailed(e.order)];
      FirstAppend(s.log, InventoryReservationFailed(e.order), KReservationFailed, e.order);
    }
  }

  /** What is consumed stays so, as the log and the marks only grow. */
  lemma DoneStays(s: State, s': State, g: Group, i: nat)
    requires i < |s.log| && s.log <= s'.log && s.settled <= s'.settled && s.processed <= s'.processed && Done(s, g, i)
    ensures Done(s', g, i)
  {
    assert s'.log[i] == s.log[i];
    if IsCreation(g, s.log[i]) && Sent(s, KReservationFailed, s.log[i].order) {
      StaysSent(s.log, s'.log, KReservationFailed, s.log[i].order);
    }
  }

  lemma StaysSent(log: seq<Event>, log': seq<Event>, k: Kind, o: nat)
    requires log <= log' && First(log, k, o) >= 0
    ensures First(log', k, o) >= 0
  {
    FirstIsFirst(log, k, o);
    FirstIsFirst(log', k, o);
    assert log'[First(log, k, o)] == log[First(log, k, o)];
  }

  lemma AttemptConsumes(s: State, g: Group, i: nat, a: Answer)
    requires PhaseInv(s) && NoTimeouts(s) && AllPayable(s) && i < |s.log| && (g, i) !in s.processed
    requires Subscribes(g, TopicOf(s.log[i])) && Honest(s, Deliver(g, i, a))
    ensures Done(DeliverTo(s, g, i, a), g, i)
  {
    match g {
      case OrderGroup =>
        if !IsFinal(g, s.log[i]) {
          OrderCommits(s, i, a);
        }
      case CatalogGroup => CreationAnswered(s, i, a);
      case PaymentGroup => PaymentCommits(s, i, a);
    }
  }

  lemma DeliveryConsumes(s: State, g: Group, i: nat, a: Answer)
    requires PhaseInv(s) && NoTimeouts(s) && AllPayable(s) && AttemptsCount(s) && Honest(s, Deliver(g, i, a))
    ensures AttemptsCount(DeliverTo(s, g, i, a))
  {
    var s' := DeliverTo(s, g, i, a);
    if i < |s.log| && Subscribes(g, TopicOf(s.log[i])) && (g, i) !in s.processed {
      AttemptConsumes(s, g, i, a);
      StepGrows(s, Deliver(g, i, a));
      forall h: Group, j: nat | j < |s'.log| && (h, j) in s'.settled && Subscribes(h, TopicOf(s'.log[j]))
        ensures Done(s', h, j)
      {
        if (h, j) != (g, i) {
          assert (h, j) in s.settled && j < |s.log|;
          assert s'.log[j] == s.log[j] && Done(s, h, j);
          DoneStays(s, s', h, j);
        }
      }
    }
  }

  lemma StepConsumes(s: State, step: Step)
    requires PhaseInv(s) && NoTimeouts(s) && AllPayable(s) && AttemptsCount(s) && Orderly(s, step) && Honest(s, step)
    ensures AttemptsCount(Apply(s, step))
  {
    if step.Deliver? {
      DeliveryConsumes(s, step.group, step.event, step.answer);
    } else {
      var s' := Apply(s, step);
      assert s'.settled == s.settled && s'.processed == s.processed && s.log <= s'.log;
      forall h: Group, j: nat | j < |s'.log| && (h, j) in s'.settled && Subscribes(h, TopicOf(s'.log[j]))
        ensures Done(s', h, j)
      {
        assert s'.log[j] == s.log[j] && Done(s, h, j);
        DoneStays(s, s', h, j);
      }
    }
  }

  lemma {:induction false} HonestRunsSettle(steps: seq<Step>)
    requires HonestRun(steps)
    ensures AllPayable(Run(INITIAL, steps)) && AttemptsCount(Run(INITIAL, steps))
  {
    if steps != [] {
      var n := |steps| - 1;
      var front := steps[..n];
      assert forall m :: 0 <= m < n ==> front[..m] == steps[..m];
      assert OrderlyRun(front) && HonestRun(front);
      HonestRunsSettle(front);
      OrderlyRunKeepsPhase(front);
      var s := Run(INITIAL, front);
      assert Orderly(s, steps[n]) && Honest(s, steps[n]);
      StepKeepsPayable(s, steps[n]);
      StepConsumes(s, steps[n]);
    }
  }

  /** In an honest run every order is consistent as soon as every subscriber has attempted every event. */
  lemma SettledConsistency(steps: seq<Step>, o: nat)
    requires HonestRun(steps) && o in Run(INITIAL, steps).orders
    requires var s := Run(INITIAL, steps);
             forall g: Group, i: nat :: i < |s.log| && Subscribes(g, TopicOf(s.log[i])) ==> (g, i) in s.settled
    ensures Consistent(Run(INITIAL, steps), o)
  {
    HonestRunsSettle(steps);
    QuiescentConsistency(steps, o);
  }
}
