/**
 * Why quiescent consistency needs its condition: a failed reservation is told to the order service outside the
 * transaction that rolls back, so a redelivery of OrderCreated may still reserve for an order that is cancelled.
 */
module SagaWitness {
  import opened Common
  import opened Orders
  import opened Inventory
  import opened Events
  import opened Saga
  import opened SagaCausality
  import opened SagaStock
  import opened SagaQuiescence
  import opened SagaRuns

  // ── One run ─────────────────────────────────────────────────

  function StrandedLog(c: string): seq<Event> {
    [CreatedIn(c), InventoryReservationFailed(0), ReservedIn(c),
     PaymentAuthorizedEvent(0), OrderConfirmed(0), PaymentCaptured(0)]
  }

  const STRANDED_MARKS: set<(Group, nat)> :=
    {(CatalogGroup, 0), (PaymentGroup, 2), (OrderGroup, 2), (OrderGroup, 3), (PaymentGroup, 4), (OrderGroup, 1)}

  const IGNORED_MARKS: set<(Group, nat)> :=
    {(PaymentGroup, 0), (PaymentGroup, 1), (PaymentGroup, 3), (CatalogGroup, 4), (PaymentGroup, 5), (OrderGroup, 5)}

  /** Refused, redelivered, paid, and only then told of the refusal. */
  lemma StrandedRun(c: string) returns (run: seq<Step>)
    requires c in SUPPORTED_CURRENCIES
    ensures Stage(Run(INITIAL, run), c, Cancelled, Ledger.Captured, StrandedLog(c), STRANDED_MARKS)
  {
    var log := [CreatedIn(c), InventoryReservationFailed(0), ReservedIn(c)];
    run := Replaced(c);
    run := PaidRun(run, c, log, {(CatalogGroup, 0)}, 2);
    var marks := {(CatalogGroup, 0)} + {(PaymentGroup, 2), (OrderGroup, 2)} + {(OrderGroup, 3)} + {(PaymentGroup, 4)};
    StrandedLogIs(c);
    run := ToldTooLate(run, c, marks);
  }

  lemma StrandedLogIs(c: string)
    ensures [CreatedIn(c), InventoryReservationFailed(0), ReservedIn(c)] + [PaymentAuthorizedEvent(0)]
            + [OrderConfirmed(0)] + [PaymentCaptured(0)] == StrandedLog(c)
  {
  }

  lemma ToldTooLate(start: seq<Step>, c: string, marks: set<(Group, nat)>) returns (run: seq<Step>)
    requires Stage(Run(INITIAL, start), c, OrderStatus.Confirmed, Ledger.Captured, StrandedLog(c), marks)
    requires marks == STRANDED_MARKS - {(OrderGroup, 1)}
    ensures Stage(Run(INITIAL, run), c, Cancelled, Ledger.Captured, StrandedLog(c), STRANDED_MARKS)
  {
    run := start;
    run := Moves(run, c, OrderStatus.Confirmed, Cancelled, Ledger.Captured, StrandedLog(c), marks, 1, []);
    assert StrandedLog(c) + [] == StrandedLog(c) && marks + {(OrderGroup, 1)} == STRANDED_MARKS;
  }

  lemma IgnoreMore(run: seq<Step>, c: string, marks: set<(Group, nat)>, g: Group, i: nat) returns (longer: seq<Step>)
    requires Stage(Run(INITIAL, run), c, Cancelled, Ledger.Captured, StrandedLog(c), marks)
    requires (g, i) !in marks && (g, i) in IGNORED_MARKS
    ensures Stage(Run(INITIAL, longer), c, Cancelled, Ledger.Captured, StrandedLog(c), marks + {(g, i)})
  {
    longer := Ignores(run, c, Cancelled, Ledger.Captured, StrandedLog(c), marks, g, i);
  }

  lemma PaymentIgnores(c: string) returns (run: seq<Step>)
    requires c in SUPPORTED_CURRENCIES
    ensures Stage(Run(INITIAL, run), c, Cancelled, Ledger.Captured, StrandedLog(c),
                  STRANDED_MARKS + {(PaymentGroup, 0)} + {(PaymentGroup, 1)} + {(PaymentGroup, 3)})
  {
    run := StrandedRun(c);
    run := IgnoreMore(run, c, STRANDED_MARKS, PaymentGroup, 0);
    run := IgnoreMore(run, c, STRANDED_MARKS + {(PaymentGroup, 0)}, PaymentGroup, 1);
    run := IgnoreMore(run, c, STRANDED_MARKS + {(PaymentGroup, 0)} + {(PaymentGroup, 1)}, PaymentGroup, 3);
  }

  lemma CatalogIgnores(c: string) returns (run: seq<Step>)
    requires c in SUPPORTED_CURRENCIES
    ensures Stage(Run(INITIAL, run), c, Cancelled, Ledger.Captured, StrandedLog(c),
                  STRANDED_MARKS + {(PaymentGroup, 0)} + {(PaymentGroup, 1)} + {(PaymentGroup, 3)}
                  + {(CatalogGroup, 4)})
  {
    run := PaymentIgnores(c);
    var marks := STRANDED_MARKS + {(PaymentGroup, 0)} + {(PaymentGroup, 1)} + {(PaymentGroup, 3)};
    run := IgnoreMore(run, c, marks, CatalogGroup, 4);
  }

  lemma AllMarks()
    ensures STRANDED_MARKS + {(PaymentGroup, 0)} + {(PaymentGroup, 1)} + {(PaymentGroup, 3)} + {(CatalogGroup, 4)}
            + {(PaymentGroup, 5)} + {(OrderGroup, 5)} == STRANDED_MARKS + IGNORED_MARKS
  {
  }

  lemma QuietStrandedRun(c: string) returns (run: seq<Step>)
    requires c in SUPPORTED_CURRENCIES
    ensures Stage(Run(INITIAL, run), c, Cancelled, Ledger.Captured, StrandedLog(c), STRANDED_MARKS + IGNORED_MARKS)
  {
    run := CatalogIgnores(c);
    var marks := STRANDED_MARKS + {(PaymentGroup, 0)} + {(PaymentGroup, 1)} + {(PaymentGroup, 3)};
    run := IgnoreMore(run, c, marks + {(CatalogGroup, 4)}, PaymentGroup, 5);
    run := IgnoreMore(run, c, marks + {(CatalogGroup, 4)} + {(PaymentGroup, 5)}, OrderGroup, 5);
    AllMarks();
  }

  lemma AllConsumed(s: State, c: string)
    requires s.log == StrandedLog(c) && s.processed == STRANDED_MARKS + IGNORED_MARKS && s.processed <= s.settled
    ensures Quiescent(s)
  {
    forall g: Group, i: nat | i < |s.log| && Subscribes(g, TopicOf(s.log[i])) ensures Done(s, g, i) {
      assert i == 0 || i == 1 || i == 2 || i == 3 || i == 4 || i == 5;
      assert (g, i) in s.processed;
    }
  }

  /**
   * In every supported currency: OrderCreated, refused for want of stock, is delivered again after stock
   * has arrived. Everything ends consumed, yet the order is cancelled, its payment captured and its stock
   * reserved; no OrderCancelled was written that could undo either.
   */
  lemma RedeliveredDeadLetterStrandsPayment(c: string) returns (run: seq<Step>)
    requires c in SUPPORTED_CURRENCIES
    ensures var s := Run(INITIAL, run);
            && Quiescent(s) && !Consistent(s, 0)
            && 0 in s.orders && s.orders[0].status == Cancelled
            && Ledger.StateOf(s.books, 0) == Ledger.Captured && !HoldsNothing(s.stock, 0)
            && (forall i :: 0 <= i < |s.log| ==> s.log[i] != OrderCancelled(0))
  {
    run := QuietStrandedRun(c);
    var s := Run(INITIAL, run);
    ProcessedIsSettled(run);
    AllConsumed(s, c);
    assert s.stock.rows[0] == Reservation(0, 7, 1, Reserved);
  }

  // ── Every redelivery that fits ──────────────────────────────

  /** Cancelled for want of stock, yet holding stock, with nothing in the log that would release it. */
  ghost predicate Stuck(s: State, o: nat, items: seq<Item>) {
    && o in s.orders && s.orders[o].status == Cancelled
    && AllHeld(s.stock.rows, o, items)
    && (forall j :: 0 <= j < |s.log| ==> s.log[j] != OrderCancelled(o))
  }

  lemma CancelledStays(orders: map<nat, OrderService.Order>, e: Event, o: nat)
    requires o in orders && orders[o].status == Cancelled && OrderService.Handle(orders, e).Ok?
    ensures var w := OrderService.Handle(orders, e).value;
            o in w.orders && w.orders[o].status == Cancelled && w.event != Some(OrderCancelled(o))
  {
  }

  lemma MoreRowsStillHold(rows: seq<Reservation>, more: seq<Reservation>, o: nat, items: seq<Item>)
    requires AllHeld(rows, o, items)
    ensures AllHeld(rows + more, o, items)
  {
  }

  lemma CatalogKeepsStuck(s: State, e: Event, db: CatalogService.DbAnswer, o: nat, items: seq<Item>)
    requires AllHeld(s.stock.rows, o, items) && e != OrderCancelled(o)
    ensures var w := CatalogService.Handle(s.stock, e, db);
            AllHeld(w.stock.rows, o, items) && w.event != Some(OrderCancelled(o))
  {
    match e {
      case OrderCreated(p, wanted, _, _) =>
        var lines := CatalogService.Lines(wanted);
        ReserveAllExactly(s.stock, p, lines);
        MoreRowsStillHold(s.stock.rows, NewRows(p, lines), o, items);
      case OrderCancelled(p) => ReleaseHoldsForOthers(s.stock, p, o, items);
      case _ =>
    }
  }

  lemma DeliveryKeepsStuck(s: State, g: Group, i: nat, a: Answer, o: nat, items: seq<Item>)
    requires Stuck(s, o, items)
    ensures Stuck(DeliverTo(s, g, i, a), o, items)
  {
    if i < |s.log| {
      match g {
        case OrderGroup =>
          if OrderService.Handle(s.orders, s.log[i]).Ok? {
            CancelledStays(s.orders, s.log[i], o);
          }
        case CatalogGroup => CatalogKeepsStuck(s, s.log[i], a.db, o, items);
        case PaymentGroup =>
          var r := Payments.Handle(s.books, s.log[i], a.gateway);
          if r.Ok? && r.value.event.Some? {
            Payments.WrittenFor(s.books, s.log[i], a.gateway);
          }
      }
    }
  }

  lemma StepKeepsStuck(s: State, step: Step, o: nat, items: seq<Item>)
    requires Stuck(s, o, items) && !step.ConfirmRow?
    ensures Stuck(Apply(s, step), o, items)
  {
    if step.Deliver? {
      DeliveryKeepsStuck(s, step.group, step.event, step.answer, o, items);
    }
  }

  lemma {:induction false} RunKeepsStuck(s: State, more: seq<Step>, o: nat, items: seq<Item>)
    requires Stuck(s, o, items) && forall n :: 0 <= n < |more| ==> !more[n].ConfirmRow?
    ensures Stuck(Run(s, more), o, items)
  {
    if more != [] {
      RunKeepsStuck(s, more[..|more| - 1], o, items);
      StepKeepsStuck(Run(s, more[..|more| - 1]), more[|more| - 1], o, items);
    }
  }

  /** An order refused by catalog and cancelled for it has no OrderCancelled in the log. */
  lemma RefusedIsUnannounced(s: State, i: nat)
    requires PhaseInv(s) && i < |s.log| && s.log[i].OrderCreated?
    requires (CatalogGroup, i) !in s.processed && Sent(s, KReservationFailed, s.log[i].order)
    ensures forall j :: 0 <= j < |s.log| ==> s.log[j] != OrderCancelled(s.log[i].order)
  {
    var o := s.log[i].order;
    var v := ViewOf(s, o);
    assert Phase(v);
    NotTakenYet(s, i);
    ViewIsCoherent(s, o);
    assert !v.cancelled;
    forall j | 0 <= j < |s.log| ensures s.log[j] != OrderCancelled(o) {
      if s.log[j] == OrderCancelled(o) {
        OccursSo(s.log, j);
      }
    }
  }

  /**
   * The condition of quiescent consistency is needed for every order: take any orderly run in which an
   * order was refused for want of stock and cancelled, and deliver its OrderCreated again when its lines
   * fit. Whatever follows, short of confirming the rows, every item stays reserved for the cancelled
   * order, no OrderCancelled is ever written for it, and it is never consistent again.
   */
  lemma FittingRedeliveryStrands(steps: seq<Step>, i: nat, a: Answer, more: seq<Step>)
    requires OrderlyRun(steps) && i < |Run(INITIAL, steps).log| && Run(INITIAL, steps).log[i].OrderCreated?
    requires var s := Run(INITIAL, steps);
             var o := s.log[i].order;
             && (CatalogGroup, i) !in s.processed && Sent(s, KReservationFailed, s.log[i].order)
             && o in s.orders && s.orders[o].status == Cancelled
             && CatalogService.WouldReserve(s.stock, o, s.log[i].items, a.db)
    requires forall n :: 0 <= n < |more| ==> !more[n].ConfirmRow?
    ensures var e := Run(INITIAL, steps).log[i];
            var t := Run(Apply(Run(INITIAL, steps), Deliver(CatalogGroup, i, a)), more);
            Stuck(t, e.order, e.items) && !HoldsNothing(t.stock, e.order) && !Consistent(t, e.order)
  {
    var s := Run(INITIAL, steps);
    var e := s.log[i];
    OrderlyRunKeepsPhase(steps);
    CreatedHasItems(steps);
    assert PayloadOk(s.orders, e) && HasItems(e);
    RefusedIsUnannounced(s, i);
    var s' := FirstStuck(s, i, a);
    RunKeepsStuck(s', more, e.order, e.items);
    StuckIsInconsistent(Run(s', more), e.order, e.items);
  }

  /** The note of a refusal: a pending order is cancelled by it, without an event. */
  lemma NoteCancels(s: State, s1: State, j: nat, a: Answer, o: nat, items: seq<Item>)
    requires j < |s1.log| && s1.log[j] == InventoryReservationFailed(o) && s1.orders == s.orders
    requires o in s.orders && (s.orders[o].status == Pending || s.orders[o].status == Cancelled)
    requires (OrderGroup, j) in s1.processed ==> s.orders[o].status == Cancelled
    requires AllHeld(s1.stock.rows, o, items) && forall n :: 0 <= n < |s1.log| ==> s1.log[n] != OrderCancelled(o)
    ensures Stuck(Apply(s1, Deliver(OrderGroup, j, a)), o, items)
  {
  }

  /** A refused order is pending or cancelled, and cancelled once a note of the refusal is processed. */
  lemma RefusedStatus(s: State, i: nat) returns (j: nat)
    requires PhaseInv(s) && i < |s.log| && s.log[i].OrderCreated?
    requires (CatalogGroup, i) !in s.processed && Sent(s, KReservationFailed, s.log[i].order)
    ensures j < |s.log| && s.log[j] == InventoryReservationFailed(s.log[i].order)
    ensures var o := s.log[i].order;
            && o in s.orders && (s.orders[o].status == Pending || s.orders[o].status == Cancelled)
            && ((OrderGroup, j) in s.settled ==> s.orders[o].status == Cancelled)
  {
    var o := s.log[i].order;
    var v := ViewOf(s, o);
    assert Phase(v);
    NotTakenYet(s, i);
    ViewIsCoherent(s, o);
    OccursSo(s.log, i);
    assert v.unreserved && !v.reserved;
    j := First(s.log, KReservationFailed, o);
    FirstIsFirst(s.log, KReservationFailed, o);
    if (OrderGroup, j) in s.settled {
      assert Is(s.log[j], KReservationFailed, o) && Done(s, OrderGroup, j);
      assert v.oUnreserved;
    }
  }

  /**
   * And it is needed in every refusal, cancelled or not yet: after a redelivery that fits there is a note
   * of the refusal in the log whose delivery to the order service strands the order for good.
   */
  lemma FittingRedeliveryMayStrand(steps: seq<Step>, i: nat, a: Answer, more: seq<Step>) returns (j: nat)
    requires OrderlyRun(steps) && i < |Run(INITIAL, steps).log| && Run(INITIAL, steps).log[i].OrderCreated?
    requires var s := Run(INITIAL, steps);
             && (CatalogGroup, i) !in s.processed && Sent(s, KReservationFailed, s.log[i].order)
             && CatalogService.WouldReserve(s.stock, s.log[i].order, s.log[i].items, a.db)
    requires forall n :: 0 <= n < |more| ==> !more[n].ConfirmRow?
    ensures var s := Run(INITIAL, steps);
            var e := s.log[i];
            var t := Run(Apply(Apply(s, Deliver(CatalogGroup, i, a)), Deliver(OrderGroup, j, a)), more);
            && j < |s.log| && s.log[j] == InventoryReservationFailed(e.order)
            && Stuck(t, e.order, e.items) && !Consistent(t, e.order)
  {
    var s := Run(INITIAL, steps);
    var e := s.log[i];
    OrderlyRunKeepsPhase(steps);
    CreatedHasItems(steps);
    assert PayloadOk(s.orders, e) && HasItems(e);
    RefusedIsUnannounced(s, i);
    j := RefusedStatus(s, i);
    ProcessedIsSettled(steps);
    var s1 := Refitted(s, i, a);
    NoteCancels(s, s1, j, a, e.order, e.items);
    var s2 := Apply(s1, Deliver(OrderGroup, j, a));
    RunKeepsStuck(s2, more, e.order, e.items);
    StuckIsInconsistent(Run(s2, more), e.order, e.items);
  }

  lemma Refitted(s: State, i: nat, a: Answer) returns (s1: State)
    requires i < |s.log| && s.log[i].OrderCreated? && (CatalogGroup, i) !in s.processed
    requires CatalogService.WouldReserve(s.stock, s.log[i].order, s.log[i].items, a.db)
    requires forall j :: 0 <= j < |s.log| ==> s.log[j] != OrderCancelled(s.log[i].order)
    ensures s1 == Apply(s, Deliver(CatalogGroup, i, a)) && s1.orders == s.orders && s.log <= s1.log
    ensures s1.processed == s.processed + {(CatalogGroup, i)}
    ensures AllHeld(s1.stock.rows, s.log[i].order, s.log[i].items)
    ensures forall n :: 0 <= n < |s1.log| ==> s1.log[n] != OrderCancelled(s.log[i].order)
  {
    var e := s.log[i];
    CatalogService.ReservesExactly(s.stock, e.order, e.items, e.total, e.currency, a.db);
    NewRowsHoldAll(s.stock.rows, e.order, e.items);
    s1 := Apply(s, Deliver(CatalogGroup, i, a));
    assert s1.log == s.log + [InventoryReservedEvent(e.order, CatalogService.Lines(e.items), e.total, e.currency)];
  }

  lemma NewRowsHoldAll(rows: seq<Reservation>, o: nat, items: seq<Item>)
    ensures AllHeld(rows + NewRows(o, CatalogService.Lines(items)), o, items)
  {
    var all := rows + NewRows(o, CatalogService.Lines(items));
    forall n | 0 <= n < |items| ensures Reservation(o, items[n].sku, items[n].qty, Reserved) in all {
      assert all[|rows| + n] == Reservation(o, items[n].sku, items[n].qty, Reserved);
    }
  }

  lemma FirstStuck(s: State, i: nat, a: Answer) returns (s': State)
    requires i < |s.log| && s.log[i].OrderCreated? && (CatalogGroup, i) !in s.processed
    requires s.log[i].order in s.orders && s.orders[s.log[i].order].status == Cancelled
    requires CatalogService.WouldReserve(s.stock, s.log[i].order, s.log[i].items, a.db)
    requires forall j :: 0 <= j < |s.log| ==> s.log[j] != OrderCancelled(s.log[i].order)
    ensures s' == Apply(s, Deliver(CatalogGroup, i, a)) && Stuck(s', s.log[i].order, s.log[i].items)
  {
    s' := Refitted(s, i, a);
  }

  lemma StuckIsInconsistent(s: State, o: nat, items: seq<Item>)
    requires Stuck(s, o, items) && items != []
    ensures !HoldsNothing(s.stock, o) && !Consistent(s, o)
  {
    var r := Reservation(o, items[0].sku, items[0].qty, Reserved);
    assert r in s.stock.rows;
    var k :| 0 <= k < |s.stock.rows| && s.stock.rows[k] == r;
    assert s.stock.rows[k].order == o && s.stock.rows[k].status == Reserved;
  }

  // ── A lost note ─────────────────────────────────────────────

  /** A refusal whose note cannot be written leaves no trace but the dead letter. */
  lemma LostNoteIsSilent(s: State, i: nat, a: Answer)
    requires i < |s.log| && s.log[i].OrderCreated? && (CatalogGroup, i) !in s.processed && !a.db.noteOk
    requires !CatalogService.WouldReserve(s.stock, s.log[i].order, s.log[i].items, a.db)
    ensures DeliverTo(s, CatalogGroup, i, a) == s.(settled := s.settled + {(CatalogGroup, i)})
  {
    var e := s.log[i];
    CatalogService.ReservesExactly(s.stock, e.order, e.items, e.total, e.currency, a.db);
  }

  /** So an event counts as consumed only once its refusal is announced: here all is settled, and the order pending. */
  lemma LostNoteLeavesPending(c: string) returns (run: seq<Step>)
    requires c in SUPPORTED_CURRENCIES
    ensures var s := Run(INITIAL, run);
            && (forall g: Group, i: nat | i < |s.log| && Subscribes(g, TopicOf(s.log[i])) :: (g, i) in s.settled)
            && 0 in s.orders && s.orders[0].status == Pending && !Quiescent(s) && !Consistent(s, 0)
  {
    Values(c);
    var lost := ANSWER.(db := CatalogService.DbAnswer(false, false));
    run := Then([], CreateOrder(0, ITEMS, c));
    var s1 := Run(INITIAL, run);
    assert s1.log == [CreatedIn(c)] && s1.processed == {} && s1.settled == {};
    LostNoteIsSilent(s1, 0, lost);
    run := Then(run, Deliver(CatalogGroup, 0, lost));
    var s2 := Run(INITIAL, run);
    run := Then(run, Deliver(PaymentGroup, 0, ANSWER));
    PaymentIgnoresCreation(s2, c);
    UnansweredIsPending(Run(INITIAL, run), c);
  }

  lemma PaymentIgnoresCreation(s: State, c: string)
    requires s.log == [CreatedIn(c)] && s.processed == {}
    ensures Apply(s, Deliver(PaymentGroup, 0, ANSWER))
         == s.(processed := {(PaymentGroup, 0)}, settled := s.settled + {(PaymentGroup, 0)})
  {
  }

  lemma UnansweredIsPending(s: State, c: string)
    requires s.log == [CreatedIn(c)] && s.processed == {(PaymentGroup, 0)}
    requires s.settled == {(CatalogGroup, 0), (PaymentGroup, 0)}
    requires 0 in s.orders && s.orders[0].status == Pending
    ensures forall g: Group, i: nat | i < |s.log| && Subscribes(g, TopicOf(s.log[i])) :: (g, i) in s.settled
    ensures !Quiescent(s) && !Consistent(s, 0)
  {
    FirstIsFirst(s.log, KReservationFailed, 0);
    assert !Done(s, CatalogGroup, 0) && Subscribes(CatalogGroup, TopicOf(s.log[0]));
  }
}
