/** What the gateway's answers and the delivered failures lead to, over every run of the saga. */
module SagaGateway {
  import opened Orders
  import opened Events
  import opened Saga
  import opened SagaCausality
  import opened SagaRetry

  // ── Authorizations ──────────────────────────────────────────

  /** Step `n` delivers an InventoryReserved of `o` to payment, and the gateway approves exactly `amount`. */
  predicate ApprovedAt(steps: seq<Step>, n: nat, o: nat, amount: int)
    requires n < |steps|
  {
    var s, step := Run(INITIAL, steps[..n]), steps[n];
    && step.Deliver? && step.group == PaymentGroup && step.event < |s.log|
    && s.log[step.event].InventoryReservedEvent? && s.log[step.event].order == o
    && step.answer.gateway.auth.Approved? && step.answer.gateway.auth.amount == amount
  }

  /** Only payment writes PaymentAuthorized, and only for an approval of exactly the event's total. */
  lemma AuthorizedByApproval(s: State, step: Step, o: nat)
    requires Ledger.Shaped(s.books)
    requires PaymentAuthorizedEvent(o) !in s.log && PaymentAuthorizedEvent(o) in Apply(s, step).log
    ensures step.Deliver? && step.group == PaymentGroup && step.event < |s.log|
    ensures var e := s.log[step.event];
            && e.InventoryReservedEvent? && e.order == o
            && step.answer.gateway.auth.Approved? && step.answer.gateway.auth.amount == e.total
  {
    LastIsNew(s, step, PaymentAuthorizedEvent(o));
    if step.Deliver? && step.group == PaymentGroup && step.event < |s.log| {
      var e, g := s.log[step.event], step.answer.gateway;
      if Payments.Handle(s.books, e, g).Ok? && Payments.Handle(s.books, e, g).value.event.Some? {
        Payments.WrittenFor(s.books, e, g);
        if e.InventoryReservedEvent? {
          Payments.AuthorizationDecides(s.books, e, g);
          Ledger.StateTellsShape(s.books, e.order);
        }
      }
    }
  }

  /** A step appends at most one event. */
  lemma LastIsNew(s: State, step: Step, e: Event)
    requires e !in s.log && e in Apply(s, step).log
    ensures Apply(s, step).log == s.log + [e]
  {
  }

  /**
   * In every run: a PaymentAuthorized comes from a delivery whose gateway answer approved exactly the
   * order's value.
   */
  lemma {:induction false} AuthorizedMeansApproved(steps: seq<Step>, o: nat) returns (n: nat)
    requires PaymentAuthorizedEvent(o) in Run(INITIAL, steps).log
    ensures var s := Run(INITIAL, steps);
            n < |steps| && o in s.orders && ApprovedAt(steps, n, o, OrderValue(s.orders[o].items))
  {
    var m := |steps| - 1;
    var front := steps[..m];
    var s := Run(INITIAL, front);
    RunKeepsCausal(front);
    RunKeepsCausal(steps);
    if PaymentAuthorizedEvent(o) in s.log {
      n := AuthorizedMeansApproved(front, o);
      assert front[..n] == steps[..n];
      OrdersKeepItems(s, steps[m], o);
    } else {
      AuthorizedByApproval(s, steps[m], o);
      n := m;
      assert PayloadOk(s.orders, s.log[steps[m].event]) && OrderOk(s, o);
      OrdersKeepItems(s, steps[m], o);
    }
  }

  lemma OrdersKeepItems(s: State, step: Step, o: nat)
    requires o in s.orders
    ensures o in Apply(s, step).orders && Apply(s, step).orders[o].items == s.orders[o].items
  {
  }

  lemma ChargedIsAnnounced(steps: seq<Step>, o: nat)
    requires Ledger.StateOf(Run(INITIAL, steps).books, o) != Ledger.New
    ensures PaymentAuthorizedEvent(o) in Run(INITIAL, steps).log
  {
    var s := Run(INITIAL, steps);
    RunKeepsCausal(steps);
    assert OrderOk(s, o);
    FirstIsFirst(s.log, KAuthorized, o);
    assert s.log[First(s.log, KAuthorized, o)] == PaymentAuthorizedEvent(o);
  }

  /** So an order for which no approval is for its exact value is never charged. */
  lemma UnapprovedStaysNew(steps: seq<Step>, o: nat, value: int)
    requires o in Run(INITIAL, steps).orders && value == OrderValue(Run(INITIAL, steps).orders[o].items)
    requires forall n :: 0 <= n < |steps| ==> !ApprovedAt(steps, n, o, value)
    ensures Ledger.StateOf(Run(INITIAL, steps).books, o) == Ledger.New
  {
    if Ledger.StateOf(Run(INITIAL, steps).books, o) != Ledger.New {
      ChargedIsAnnounced(steps, o);
      var n := AuthorizedMeansApproved(steps, o);
    }
  }

  // ── Captures ────────────────────────────────────────────────

  /** Step `n` delivers a capture request of `o` to payment, and the gateway gives `answer`. */
  predicate CaptureAnsweredAt(steps: seq<Step>, n: nat, o: nat, answer: Payments.CaptureAnswer)
    requires n < |steps|
  {
    var s, step := Run(INITIAL, steps[..n]), steps[n];
    && step.Deliver? && step.group == PaymentGroup && step.event < |s.log|
    && AsksCapture(s.log[step.event], o) && step.answer.gateway.capture == answer
  }

  /** The event each answer to a capture request is for. */
  predicate AnsweredBy(e: Event, o: nat, answer: Payments.CaptureAnswer) {
    match answer
    case CaptureOk => e == PaymentCaptured(o)
    case CaptureRetryable => e.CaptureRetryRequested? && e.order == o
    case CaptureRefused => e == PaymentFailed(o, CaptureDeclined)
  }

  lemma AnswerDecides(s: State, step: Step, e: Event, o: nat, answer: Payments.CaptureAnswer)
    requires Ledger.Shaped(s.books) && e !in s.log && e in Apply(s, step).log && AnsweredBy(e, o, answer)
    ensures step.Deliver? && step.group == PaymentGroup && step.event < |s.log|
    ensures AsksCapture(s.log[step.event], o) && step.answer.gateway.capture == answer
  {
    LastIsNew(s, step, e);
    if step.Deliver? && step.group == PaymentGroup && step.event < |s.log| {
      var cause, g := s.log[step.event], step.answer.gateway;
      if Payments.Handle(s.books, cause, g).Ok? && Payments.Handle(s.books, cause, g).value.event.Some? {
        Payments.WrittenFor(s.books, cause, g);
        if cause.CaptureRetryRequested? && cause.count >= 10 {
          Payments.TenRetries(s.books, cause, g);
        } else if cause.OrderConfirmed? || cause.CaptureRetryRequested? {
          Payments.CaptureDecides(s.books, cause, g);
        }
      }
    }
  }

  /**
   * In every run: a capture, a retry request and a declined capture each come from a capture request of
   * the order to which the gateway answered with success, a retryable error and a refusal.
   */
  lemma {:induction false} AnswersLeadTo(steps: seq<Step>, e: Event, o: nat, answer: Payments.CaptureAnswer)
    returns (n: nat)
    requires e in Run(INITIAL, steps).log && AnsweredBy(e, o, answer)
    ensures n < |steps| && CaptureAnsweredAt(steps, n, o, answer)
  {
    var m := |steps| - 1;
    var front := steps[..m];
    RunKeepsCausal(front);
    if e in Run(INITIAL, front).log {
      n := AnswersLeadTo(front, e, o, answer);
      assert front[..n] == steps[..n];
    } else {
      AnswerDecides(Run(INITIAL, front), steps[m], e, o, answer);
      n := m;
    }
  }

  /** Without a refusal for the order no capture is declined, without a retryable error none is retried. */
  lemma NoSuchAnswerNoSuchEvent(steps: seq<Step>, o: nat, answer: Payments.CaptureAnswer)
    requires forall n :: 0 <= n < |steps| ==> !CaptureAnsweredAt(steps, n, o, answer)
    ensures forall i :: 0 <= i < |Run(INITIAL, steps).log| ==> !AnsweredBy(Run(INITIAL, steps).log[i], o, answer)
  {
    var log := Run(INITIAL, steps).log;
    forall i | 0 <= i < |log| ensures !AnsweredBy(log[i], o, answer) {
      if AnsweredBy(log[i], o, answer) {
        var n := AnswersLeadTo(steps, log[i], o, answer);
      }
    }
  }

  lemma ExhaustionNeedsTen(s: State, step: Step, o: nat)
    requires PaymentFailed(o, RetriesExhausted) !in s.log && PaymentFailed(o, RetriesExhausted) in Apply(s, step).log
    ensures exists i ::
              0 <= i < |s.log| && s.log[i].CaptureRetryRequested? && s.log[i].order == o && s.log[i].count >= 10
  {
    LastIsNew(s, step, PaymentFailed(o, RetriesExhausted));
    if step.Deliver? && step.group == PaymentGroup && step.event < |s.log| {
      var cause, g := s.log[step.event], step.answer.gateway;
      if Payments.Handle(s.books, cause, g).Ok? && Payments.Handle(s.books, cause, g).value.event.Some? {
        Payments.WrittenFor(s.books, cause, g);
        if cause.CaptureRetryRequested? {
          Payments.TenRetries(s.books, cause, g);
        }
      }
    }
  }

  /** In every run: a payment is given up only after the request numbered ten. */
  lemma {:induction false} GivenUpAfterTen(steps: seq<Step>, o: nat)
    requires PaymentFailed(o, RetriesExhausted) in Run(INITIAL, steps).log
    ensures exists i :: 0 <= i < |Run(INITIAL, steps).log| && Run(INITIAL, steps).log[i].CaptureRetryRequested?
                        && Run(INITIAL, steps).log[i].order == o && Run(INITIAL, steps).log[i].count >= 10
  {
    var front := steps[..|steps| - 1];
    var s, s' := Run(INITIAL, front), Run(INITIAL, steps);
    if PaymentFailed(o, RetriesExhausted) in s.log {
      GivenUpAfterTen(front, o);
    } else {
      ExhaustionNeedsTen(s, steps[|steps| - 1], o);
    }
    var i :| 0 <= i < |s.log| && s.log[i].CaptureRetryRequested? && s.log[i].order == o && s.log[i].count >= 10;
    LogIsPrefix(s, steps[|steps| - 1]);
    assert s'.log[i] == s.log[i];
  }

  lemma LogIsPrefix(s: State, step: Step)
    ensures s.log <= Apply(s, step).log
  {
  }

  // ── Delivered failures ──────────────────────────────────────

  /**
   * In every state: delivering an unprocessed PaymentFailed or PaymentTimedOut of an order that can be
   * cancelled leaves it cancelled, with exactly one OrderCancelled appended; any other order's row, the
   * stock and the books are left alone.
   */
  lemma DeliveredFailureCancels(s: State, i: nat, a: Answer)
    requires i < |s.log| && (s.log[i].PaymentFailed? || s.log[i].PaymentTimedOut?) && (OrderGroup, i) !in s.processed
    requires s.log[i].order in s.orders && CanCancel(s.orders[s.log[i].order].status)
    ensures var s' := Apply(s, Deliver(OrderGroup, i, a));
            var o := s.log[i].order;
            && o in s'.orders && s'.orders[o].status == Cancelled && s'.log == s.log + [OrderCancelled(o)]
            && (OrderGroup, i) in s'.processed && s'.stock == s.stock && s'.books == s.books
            && forall p | p in s.orders && p != o :: p in s'.orders && s'.orders[p] == s.orders[p]
  {
    OrderService.HandleDecides(s.orders, s.log[i]);
  }

  /** A time-out of such an order cancels it as soon as the order service hears of it. */
  lemma TimeOutCancels(s: State, o: nat, a: Answer)
    requires o in s.orders && CanCancel(s.orders[o].status) && (OrderGroup, |s.log|) !in s.processed
    ensures var s' := Apply(Apply(s, TimeOut(o)), Deliver(OrderGroup, |s.log|, a));
            && o in s'.orders && s'.orders[o].status == Cancelled
            && s'.log == s.log + [PaymentTimedOut(o), OrderCancelled(o)]
  {
    var s1 := Apply(s, TimeOut(o));
    assert s1.log[|s.log|] == PaymentTimedOut(o) && s1.orders == s.orders && s1.processed == s.processed;
    DeliveredFailureCancels(s1, |s.log|, a);
  }
}
