/** Short runs for one order of one item, in any supported currency, that reach the states the theorems speak of. */
module SagaRuns {
  import opened Common
  import opened Orders
  import opened Inventory
  import opened Events
  import opened Saga
  import opened SagaCausality

  const ITEMS: seq<Item> := [Item(7, 1, UNIT)]
  const HELD: Stock := Stock(map[7 := SkuRow(5, 1, false)], [Reservation(0, 7, 1, Reserved)])
  const ANSWER: Answer :=
    Answer(Payments.GatewayAnswer(Payments.Approved(UNIT, 0), Payments.CaptureOk, true),
           CatalogService.DbAnswer(true, true))

  function CreatedIn(c: string): Event {
    OrderCreated(0, ITEMS, UNIT, c)
  }

  function ReservedIn(c: string): Event {
    InventoryReservedEvent(0, [Line(7, 1)], UNIT, c)
  }

  /** Order 0 in currency `c` with its item reserved, and where it has got to. */
  ghost predicate Stage(s: State, c: string, status: OrderStatus, pay: Ledger.PaymentState,
                        log: seq<Event>, marks: set<(Group, nat)>)
  {
    && c in SUPPORTED_CURRENCIES
    && 0 in s.orders && s.orders[0].status == status && s.orders[0].items == ITEMS && s.orders[0].currency == c
    && s.stock == HELD && Ledger.StateOf(s.books, 0) == pay
    && s.log == log && s.processed == marks
  }

  lemma Then(run: seq<Step>, step: Step) returns (longer: seq<Step>)
    ensures longer == run + [step] && Run(INITIAL, longer) == Apply(Run(INITIAL, run), step)
  {
    longer := run + [step];
    assert longer[..|run|] == run;
  }

  // ── Reserving ───────────────────────────────────────────────

  lemma Values(c: string)
    requires c in SUPPORTED_CURRENCIES
    ensures OrderValue(ITEMS) == UNIT && Creatable(ITEMS, c) && CatalogService.Lines(ITEMS) == [Line(7, 1)]
  {
    assert ITEMS[..0] == [];
    assert OrderValue(ITEMS[..0]) == 0;
  }

  lemma Fits()
    ensures ReserveAll(Stock(map[7 := SkuRow(5, 0, false)], []), 0, [Line(7, 1)]) == Ok(HELD)
    ensures ReserveAll(Stock(map[], []), 0, [Line(7, 1)]).Err?
  {
    var st := Stock(map[7 := SkuRow(5, 0, false)], []);
    assert [Line(7, 1)][..0] == [];
    assert st.skus[7 := SkuRow(5, 1, false)] == HELD.skus;
    assert !HasRow(st.rows, 0, 7) && st.rows + [Reservation(0, 7, 1, Reserved)] == HELD.rows;
    assert Reserve(st, 0, Line(7, 1)) == Ok(HELD);
  }

  lemma NothingBooked()
    ensures Ledger.StateOf(Ledger.EMPTY, 0) == Ledger.New
  {
  }

  lemma Placed(c: string) returns (run: seq<Step>)
    requires c in SUPPORTED_CURRENCIES
    ensures Stage(Run(INITIAL, run), c, Pending, Ledger.New, [CreatedIn(c), ReservedIn(c)], {(CatalogGroup, 0)})
  {
    Values(c);
    Fits();
    NothingBooked();
    run := Then([], Admin(AddSku(7, 5)));
    assert Run(INITIAL, run).stock == Stock(map[7 := SkuRow(5, 0, false)], []);
    run := Then(run, CreateOrder(0, ITEMS, c));
    assert Run(INITIAL, run).log == [CreatedIn(c)];
    run := Then(run, Deliver(CatalogGroup, 0, ANSWER));
  }

  /** Refused for want of stock first, and reserved on a second delivery of OrderCreated. */
  lemma Replaced(c: string) returns (run: seq<Step>)
    requires c in SUPPORTED_CURRENCIES
    ensures Stage(Run(INITIAL, run), c, Pending, Ledger.New,
                  [CreatedIn(c), InventoryReservationFailed(0), ReservedIn(c)], {(CatalogGroup, 0)})
  {
    Values(c);
    Fits();
    NothingBooked();
    run := Then([], CreateOrder(0, ITEMS, c));
    assert Run(INITIAL, run).log == [CreatedIn(c)];
    run := Then(run, Deliver(CatalogGroup, 0, ANSWER));
    assert Run(INITIAL, run).log == [CreatedIn(c), InventoryReservationFailed(0)];
    run := Then(run, Admin(AddSku(7, 5)));
    assert Run(INITIAL, run).stock == Stock(map[7 := SkuRow(5, 0, false)], []);
    run := Then(run, Deliver(CatalogGroup, 0, ANSWER));
  }

  // ── Paying and moving ───────────────────────────────────────

  lemma Authorizes(run: seq<Step>, c: string, status: OrderStatus, log: seq<Event>, marks: set<(Group, nat)>, i: nat)
    returns (longer: seq<Step>)
    requires Stage(Run(INITIAL, run), c, status, Ledger.New, log, marks)
    requires i < |log| && log[i] == ReservedIn(c) && (PaymentGroup, i) !in marks
    ensures Stage(Run(INITIAL, longer), c, status, Ledger.Authorized,
                  log + [PaymentAuthorizedEvent(0)], marks + {(PaymentGroup, i)})
  {
    var s := Run(INITIAL, run);
    RunKeepsCausal(run);
    Payments.NewHasNoLiveAuthorization(s.books, 0);
    Ledger.AuthorizationAdvances(s.books, 0, UNIT, c, 0);
    longer := Then(run, Deliver(PaymentGroup, i, ANSWER));
  }

  lemma Captures(run: seq<Step>, c: string, status: OrderStatus, log: seq<Event>, marks: set<(Group, nat)>, i: nat)
    returns (longer: seq<Step>)
    requires Stage(Run(INITIAL, run), c, status, Ledger.Authorized, log, marks)
    requires i < |log| && log[i] == OrderConfirmed(0) && (PaymentGroup, i) !in marks
    ensures Stage(Run(INITIAL, longer), c, status, Ledger.Captured,
                  log + [PaymentCaptured(0)], marks + {(PaymentGroup, i)})
  {
    RunKeepsCausal(run);
    Ledger.CaptureAdvances(Run(INITIAL, run).books, 0);
    longer := Then(run, Deliver(PaymentGroup, i, ANSWER));
  }

  lemma Voids(run: seq<Step>, c: string, status: OrderStatus, log: seq<Event>, marks: set<(Group, nat)>, i: nat)
    returns (longer: seq<Step>)
    requires Stage(Run(INITIAL, run), c, status, Ledger.Authorized, log, marks)
    requires i < |log| && log[i] == OrderCancelled(0) && (PaymentGroup, i) !in marks
    ensures Stage(Run(INITIAL, longer), c, status, Ledger.Voided, log + [PaymentVoided(0)], marks + {(PaymentGroup, i)})
  {
    RunKeepsCausal(run);
    Ledger.VoidAdvances(Run(INITIAL, run).books, 0);
    longer := Then(run, Deliver(PaymentGroup, i, ANSWER));
  }

  /** The order service moves the order on event `i` and writes `out`. */
  lemma Moves(run: seq<Step>, c: string, from: OrderStatus, to: OrderStatus, pay: Ledger.PaymentState,
              log: seq<Event>, marks: set<(Group, nat)>, i: nat, out: seq<Event>)
    returns (longer: seq<Step>)
    requires Stage(Run(INITIAL, run), c, from, pay, log, marks) && i < |log| && (OrderGroup, i) !in marks
    requires || (log[i] == ReservedIn(c) && from == Pending && to == InventoryReserved && out == [])
             || (&& log[i] == PaymentAuthorizedEvent(0) && from == InventoryReserved
                 && to == OrderStatus.Confirmed && out == [OrderConfirmed(0)])
             || (&& log[i] == InventoryReservationFailed(0) && from == OrderStatus.Confirmed
                 && to == Cancelled && out == [])
    ensures Stage(Run(INITIAL, longer), c, to, pay, log + out, marks + {(OrderGroup, i)})
  {
    longer := Then(run, Deliver(OrderGroup, i, ANSWER));
    assert log + [] == log;
  }

  // ── The runs ────────────────────────────────────────────────

  /** Marks of catalog only, on events already written. */
  predicate CatalogMarks(marks: set<(Group, nat)>) {
    forall m | m in marks :: m.0 == CatalogGroup
  }

  lemma ReadyRun(start: seq<Step>, c: string, log: seq<Event>, marks: set<(Group, nat)>, r: nat)
    returns (run: seq<Step>)
    requires Stage(Run(INITIAL, start), c, Pending, Ledger.New, log, marks)
    requires r < |log| && log[r] == ReservedIn(c) && CatalogMarks(marks)
    ensures Stage(Run(INITIAL, run), c, InventoryReserved, Ledger.Authorized, log + [PaymentAuthorizedEvent(0)],
                  marks + {(PaymentGroup, r), (OrderGroup, r)})
  {
    var log1 := log + [PaymentAuthorizedEvent(0)];
    run := Authorizes(start, c, Pending, log, marks, r);
    run := Moves(run, c, Pending, InventoryReserved, Ledger.Authorized, log1, marks + {(PaymentGroup, r)}, r, []);
    assert log1 + [] == log1;
    assert marks + {(PaymentGroup, r)} + {(OrderGroup, r)} == marks + {(PaymentGroup, r), (OrderGroup, r)};
  }

  lemma ConfirmedRun(start: seq<Step>, c: string, log: seq<Event>, marks: set<(Group, nat)>, r: nat)
    returns (run: seq<Step>)
    requires Stage(Run(INITIAL, start), c, Pending, Ledger.New, log, marks)
    requires r < |log| && log[r] == ReservedIn(c) && CatalogMarks(marks)
    ensures Stage(Run(INITIAL, run), c, OrderStatus.Confirmed, Ledger.Authorized,
                  log + [PaymentAuthorizedEvent(0)] + [OrderConfirmed(0)],
                  marks + {(PaymentGroup, r), (OrderGroup, r)} + {(OrderGroup, |log|)})
  {
    run := ReadyRun(start, c, log, marks, r);
    var log1 := log + [PaymentAuthorizedEvent(0)];
    var marks1 := marks + {(PaymentGroup, r), (OrderGroup, r)};
    assert log1[|log|] == PaymentAuthorizedEvent(0) && (OrderGroup, |log|) !in marks1;
    run := Moves(run, c, InventoryReserved, OrderStatus.Confirmed, Ledger.Authorized,
                 log1, marks1, |log|, [OrderConfirmed(0)]);
  }

  /** Reserved, authorized, confirmed and captured, from a run whose InventoryReserved stands at `r`. */
  lemma PaidRun(start: seq<Step>, c: string, log: seq<Event>, marks: set<(Group, nat)>, r: nat) returns (run: seq<Step>)
    requires Stage(Run(INITIAL, start), c, Pending, Ledger.New, log, marks)
    requires r < |log| && log[r] == ReservedIn(c) && CatalogMarks(marks)
    ensures Stage(Run(INITIAL, run), c, OrderStatus.Confirmed, Ledger.Captured,
                  log + [PaymentAuthorizedEvent(0)] + [OrderConfirmed(0)] + [PaymentCaptured(0)],
                  marks + {(PaymentGroup, r), (OrderGroup, r)} + {(OrderGroup, |log|)} + {(PaymentGroup, |log| + 1)})
  {
    run := ConfirmedRun(start, c, log, marks, r);
    var log2 := log + [PaymentAuthorizedEvent(0)] + [OrderConfirmed(0)];
    var marks2 := marks + {(PaymentGroup, r), (OrderGroup, r)} + {(OrderGroup, |log|)};
    assert log2[|log| + 1] == OrderConfirmed(0) && (PaymentGroup, |log| + 1) !in marks2;
    run := Captures(run, c, OrderStatus.Confirmed, log2, marks2, |log| + 1);
  }

  /** In every supported currency some run ends with the payment captured. */
  lemma CapturedRun(c: string) returns (run: seq<Step>)
    requires c in SUPPORTED_CURRENCIES
    ensures var s := Run(INITIAL, run);
            && 0 in s.orders && s.orders[0].items == ITEMS && s.orders[0].currency == c
            && Ledger.StateOf(s.books, 0) == Ledger.Captured
  {
    run := Placed(c);
    run := PaidRun(run, c, [CreatedIn(c), ReservedIn(c)], {(CatalogGroup, 0)}, 1);
  }

  /** In every supported currency some run ends with the payment voided. */
  lemma VoidedRun(c: string) returns (run: seq<Step>)
    requires c in SUPPORTED_CURRENCIES
    ensures var s := Run(INITIAL, run);
            && 0 in s.orders && s.orders[0].items == ITEMS && s.orders[0].currency == c
            && Ledger.StateOf(s.books, 0) == Ledger.Voided
  {
    var log := [CreatedIn(c), ReservedIn(c)];
    run := Placed(c);
    run := Authorizes(run, c, Pending, log, {(CatalogGroup, 0)}, 1);
    var marks := {(CatalogGroup, 0)} + {(PaymentGroup, 1)};
    var log1 := log + [PaymentAuthorizedEvent(0)];
    run := Then(run, BuyerCancel(0));
    assert Stage(Run(INITIAL, run), c, Cancelled, Ledger.Authorized, log1 + [OrderCancelled(0)], marks);
    run := Voids(run, c, Cancelled, log1 + [OrderCancelled(0)], marks, 3);
  }

  /** A delivery that its group ignores. */
  lemma Ignores(run: seq<Step>, c: string, status: OrderStatus, pay: Ledger.PaymentState,
                log: seq<Event>, marks: set<(Group, nat)>, g: Group, i: nat)
    returns (longer: seq<Step>)
    requires Stage(Run(INITIAL, run), c, status, pay, log, marks) && i < |log| && (g, i) !in marks
    requires match g
             case PaymentGroup => KindOf(log[i]) in {KCreated, KReservationFailed, KAuthorized, KCaptured}
             case CatalogGroup => log[i] == OrderConfirmed(0)
             case OrderGroup => log[i] == PaymentCaptured(0)
    ensures Stage(Run(INITIAL, longer), c, status, pay, log, marks + {(g, i)})
  {
    longer := Then(run, Deliver(g, i, ANSWER));
  }

  /** A committed delivery is settled. */
  lemma {:induction false} ProcessedIsSettled(steps: seq<Step>)
    ensures Run(INITIAL, steps).processed <= Run(INITIAL, steps).settled
  {
    if steps != [] {
      ProcessedIsSettled(steps[..|steps| - 1]);
    }
  }
}
