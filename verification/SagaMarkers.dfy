/**
 * What deleting catalog's marker of a committed OrderCreated does: handled again, the event cannot reserve a
 * second time, so catalog announces a failed reservation for an order that holds its stock.
 */
module SagaMarkers {
  import opened Orders
  import opened Inventory
  import opened Events
  import opened Saga
  import opened SagaCausality
  import opened SagaStock
  import opened SagaQuiescence
  import opened SagaSettled

  // ── What a marker of OrderCreated tells ─────────────────────

  /** A committed OrderCreated has written InventoryReserved; marks are set on events of the log only. */
  ghost predicate MarksTell(s: State) {
    && (forall g: Group, i: nat :: (g, i) in s.processed ==> i < |s.log|)
    && (forall i: nat :: (CatalogGroup, i) in s.processed && i < |s.log| && s.log[i].OrderCreated? ==>
          First(s.log, KReserved, s.log[i].order) >= 0)
  }

  lemma DeliveryTells(s: State, g: Group, i: nat, a: Answer)
    requires MarksTell(s)
    ensures MarksTell(DeliverTo(s, g, i, a))
  {
    var s' := DeliverTo(s, g, i, a);
    StepGrows(s, Deliver(g, i, a));
    forall j: nat | (CatalogGroup, j) in s'.processed && j < |s'.log| && s'.log[j].OrderCreated?
      ensures First(s'.log, KReserved, s'.log[j].order) >= 0
    {
      assert j < |s.log| && s'.log[j] == s.log[j];
      if (CatalogGroup, j) in s.processed {
        StaysSent(s.log, s'.log, KReserved, s.log[j].order);
      } else {
        CommitAnnounces(s, j, a);
      }
    }
  }

  lemma CommitAnnounces(s: State, i: nat, a: Answer)
    requires i < |s.log| && s.log[i].OrderCreated? && (CatalogGroup, i) !in s.processed
    requires (CatalogGroup, i) in DeliverTo(s, CatalogGroup, i, a).processed
    ensures First(DeliverTo(s, CatalogGroup, i, a).log, KReserved, s.log[i].order) >= 0
  {
    var e := s.log[i];
    var out := InventoryReservedEvent(e.order, CatalogService.Lines(e.items), e.total, e.currency);
    assert DeliverTo(s, CatalogGroup, i, a).log == s.log + [out];
    FirstAppend(s.log, out, KReserved, e.order);
  }

  lemma StepTells(s: State, step: Step)
    requires MarksTell(s)
    ensures MarksTell(Apply(s, step))
  {
    if step.Deliver? {
      DeliveryTells(s, step.group, step.event, step.answer);
    } else {
      var s' := Apply(s, step);
      StepGrows(s, step);
      forall j: nat | (CatalogGroup, j) in s'.processed && j < |s'.log| && s'.log[j].OrderCreated?
        ensures First(s'.log, KReserved, s'.log[j].order) >= 0
      {
        assert s'.log[j] == s.log[j];
        StaysSent(s.log, s'.log, KReserved, s.log[j].order);
      }
    }
  }

  lemma {:induction false} RunTells(steps: seq<Step>)
    ensures MarksTell(Run(INITIAL, steps))
  {
    if steps != [] {
      RunTells(steps[..|steps| - 1]);
      StepTells(Run(INITIAL, steps[..|steps| - 1]), steps[|steps| - 1]);
    }
  }

  // ── Handling OrderCreated again ─────────────────────────────

  lemma CoveredIsTaken(st: Stock, o: nat, items: seq<Item>, db: CatalogService.DbAnswer)
    requires items != [] && RowsCover(st.rows, o, items)
    ensures !CatalogService.WouldReserve(st, o, items, db)
  {
    assert HasItemRow(st.rows, o, items[0]);
    assert HasRow(st.rows, o, items[0].sku);
    assert CatalogService.Lines(items)[0].sku == items[0].sku;
  }

  /** The state after the marker is deleted and the event delivered again. */
  function Rehandled(s: State, i: nat, a: Answer): State {
    Apply(Apply(s, ForgetMarker(CatalogGroup, i)), Deliver(CatalogGroup, i, a))
  }

  /**
   * In every run: delivering a committed OrderCreated again after its marker is deleted leaves the stock
   * alone, for the unique key refuses, and announces a failed reservation.
   */
  lemma ForgottenCreationIsRefused(steps: seq<Step>, i: nat, a: Answer)
    requires i < |Run(INITIAL, steps).log| && Run(INITIAL, steps).log[i].OrderCreated?
    requires (CatalogGroup, i) in Run(INITIAL, steps).processed
    ensures var s := Run(INITIAL, steps);
            var s' := Rehandled(s, i, a);
            && s'.orders == s.orders && s'.books == s.books && s'.stock == s.stock
            && s'.log == s.log + (if a.db.noteOk then [InventoryReservationFailed(s.log[i].order)] else [])
            && s'.processed == s.processed - {(CatalogGroup, i)}
  {
    var s := Run(INITIAL, steps);
    RunTells(steps);
    RunKeepsCausal(steps);
    CreatedHasItems(steps);
    assert PayloadOk(s.orders, s.log[i]) && HasItems(s.log[i]) && OrderOk(s, s.log[i].order);
    CoveredIsTaken(s.stock, s.log[i].order, s.log[i].items, a.db);
    RefusedAgain(s, i, a);
  }

  lemma RefusedAgain(s: State, i: nat, a: Answer)
    requires i < |s.log| && s.log[i].OrderCreated?
    requires !CatalogService.WouldReserve(s.stock, s.log[i].order, s.log[i].items, a.db)
    ensures var s' := Rehandled(s, i, a);
            && s'.orders == s.orders && s'.books == s.books && s'.stock == s.stock
            && s'.log == s.log + (if a.db.noteOk then [InventoryReservationFailed(s.log[i].order)] else [])
            && s'.processed == s.processed - {(CatalogGroup, i)}
  {
    var e := s.log[i];
    CatalogService.ReservesExactly(s.stock, e.order, e.items, e.total, e.currency, a.db);
  }

  // ── The order is cancelled after the fact ───────────────────

  /** A cancelled order with a captured payment; nothing moves either any more. */
  predicate CancelledYetCaptured(s: State, o: nat) {
    o in s.orders && s.orders[o].status == Cancelled && Ledger.StateOf(s.books, o) == Ledger.Captured
  }

  lemma CancelledRowStays(orders: map<nat, OrderService.Order>, e: Event, o: nat)
    requires o in orders && orders[o].status == Cancelled && OrderService.Handle(orders, e).Ok?
    ensures var w := OrderService.Handle(orders, e).value;
            o in w.orders && w.orders[o].status == Cancelled
  {
  }

  lemma StepKeepsCaptured(s: State, step: Step, o: nat)
    requires Ledger.Shaped(s.books) && CancelledYetCaptured(s, o)
    ensures CancelledYetCaptured(Apply(s, step), o)
  {
    if step.Deliver? && step.event < |s.log| {
      match step.group {
        case OrderGroup =>
          if OrderService.Handle(s.orders, s.log[step.event]).Ok? {
            CancelledRowStays(s.orders, s.log[step.event], o);
          }
        case CatalogGroup =>
        case PaymentGroup =>
          if Payments.Handle(s.books, s.log[step.event], step.answer.gateway).Ok? {
            Payments.HandleAdvances(s.books, s.log[step.event], step.answer.gateway);
          }
      }
    }
  }

  lemma {:induction false} RunKeepsCaptured(s: State, more: seq<Step>, o: nat)
    requires CausalInv(s) && CancelledYetCaptured(s, o)
    ensures CausalInv(Run(s, more)) && CancelledYetCaptured(Run(s, more), o)
  {
    if more != [] {
      var front := more[..|more| - 1];
      RunKeepsCaptured(s, front, o);
      StepKeepsCausal(Run(s, front), more[|more| - 1]);
      StepKeepsCaptured(Run(s, front), more[|more| - 1], o);
    }
  }

  /** The note reaches the order service: a captured order that can be cancelled is, without an event. */
  lemma NoteCancelsPaidOrder(s: State, o: nat, a: Answer)
    requires s.log != [] && s.log[|s.log| - 1] == InventoryReservationFailed(o)
    requires (OrderGroup, |s.log| - 1) !in s.processed
    requires o in s.orders && CanCancel(s.orders[o].status) && Ledger.StateOf(s.books, o) == Ledger.Captured
    ensures var s' := Apply(s, Deliver(OrderGroup, |s.log| - 1, a));
            CancelledYetCaptured(s', o) && s'.log == s.log
  {
    CancellationRuleIsTransition(s.orders[o].status);
  }

  /**
   * In every run: for an order whose payment is captured and that can still be cancelled, such as a
   * confirmed one, deleting catalog's marker, delivering OrderCreated again and then the announced
   * failure cancels the order without an OrderCancelled. Whatever follows, the order stays cancelled, its
   * payment captured, and it is never consistent again.
   */
  lemma ForgottenMarkerUndoesOrder(steps: seq<Step>, i: nat, a: Answer, more: seq<Step>)
    requires i < |Run(INITIAL, steps).log| && Run(INITIAL, steps).log[i].OrderCreated? && a.db.noteOk
    requires var s := Run(INITIAL, steps);
             var o := s.log[i].order;
             && (CatalogGroup, i) in s.processed
             && o in s.orders && CanCancel(s.orders[o].status) && Ledger.StateOf(s.books, o) == Ledger.Captured
    ensures var s := Run(INITIAL, steps);
            var s' := Apply(Rehandled(s, i, a), Deliver(OrderGroup, |s.log|, a));
            && s'.log == s.log + [InventoryReservationFailed(s.log[i].order)]
            && CancelledYetCaptured(Run(s', more), s.log[i].order)
            && !Consistent(Run(s', more), s.log[i].order)
  {
    var s := Run(INITIAL, steps);
    var o := s.log[i].order;
    RunTells(steps);
    RunKeepsCausal(steps);
    ForgottenCreationIsRefused(steps, i, a);
    var s1 := Rehandled(s, i, a);
    NoteCancelsPaidOrder(s1, o, a);
    var s' := Apply(s1, Deliver(OrderGroup, |s.log|, a));
    StepKeepsCausal(s, ForgetMarker(CatalogGroup, i));
    StepKeepsCausal(Apply(s, ForgetMarker(CatalogGroup, i)), Deliver(CatalogGroup, i, a));
    StepKeepsCausal(s1, Deliver(OrderGroup, |s.log|, a));
    RunKeepsCaptured(s', more, o);
  }
}
