/** Stock conservation and release completeness over every run of the saga. */
module SagaStock {
  import opened Inventory
  import opened Events
  import opened Saga

  lemma HandlerConserves(st: Stock, e: Event, db: CatalogService.DbAnswer)
    requires Conserved(st)
    ensures var st' := CatalogService.Handle(st, e, db).stock;
            && Conserved(st')
            && (NotOversold(st) ==> NotOversold(st'))
            && (UniqueRows(st.rows) ==> UniqueRows(st'.rows))
  {
    match e {
      case OrderCreated(o, items, _, _) =>
        if ReserveAll(st, o, CatalogService.Lines(items)).Ok? {
          ReserveAllConserves(st, o, CatalogService.Lines(items));
        }
      case OrderCancelled(o) => ReleaseAllConserves(st, o);
      case _ =>
    }
  }

  lemma StepConserves(s: State, step: Step)
    requires Conserved(s.stock) && UniqueRows(s.stock.rows)
    ensures Conserved(Apply(s, step).stock) && UniqueRows(Apply(s, step).stock.rows)
    ensures NotOversold(s.stock) && !(step.Admin? && LowersStock(s.stock, step.edit)) ==>
              NotOversold(Apply(s, step).stock)
  {
    match step {
      case Admin(edit) =>
        if Edit(s.stock, edit).Ok? {
          EditConserves(s.stock, edit);
        }
      case ConfirmRow(k) => ConfirmStepConserves(s, k);
      case Deliver(g, i, a) => DeliveryConserves(s, g, i, a);
      case _ => assert Apply(s, step).stock == s.stock;
    }
  }

  lemma ConfirmStepConserves(s: State, k: nat)
    requires Conserved(s.stock) && UniqueRows(s.stock.rows)
    ensures Conserved(Apply(s, ConfirmRow(k)).stock) && UniqueRows(Apply(s, ConfirmRow(k)).stock.rows)
    ensures NotOversold(s.stock) ==> NotOversold(Apply(s, ConfirmRow(k)).stock)
  {
    if k < |s.stock.rows| && s.stock.rows[k].status == Reserved {
      ConfirmAtConserves(s.stock, k);
    }
  }

  lemma DeliveryConserves(s: State, g: Group, i: nat, a: Answer)
    requires Conserved(s.stock) && UniqueRows(s.stock.rows)
    ensures Conserved(DeliverTo(s, g, i, a).stock) && UniqueRows(DeliverTo(s, g, i, a).stock.rows)
    ensures NotOversold(s.stock) ==> NotOversold(DeliverTo(s, g, i, a).stock)
  {
    if i < |s.log| && g == CatalogGroup {
      HandlerConserves(s.stock, s.log[i], a.db);
    }
  }

  /** No step of the run is an admin edit that takes stock away. */
  ghost predicate NeverLowers(steps: seq<Step>) {
    forall n :: 0 <= n < |steps| ==>
      !(steps[n].Admin? && LowersStock(Run(INITIAL, steps[..n]).stock, steps[n].edit))
  }

  /**
   * In every reachable state the reserved counter of each live SKU is the sum of its reserved rows, no
   * order has two rows on a SKU, and counters are never negative; if no admin edit lowers stock, no live
   * SKU is ever promised beyond its stock.
   */
  lemma {:induction false} StockConservation(steps: seq<Step>)
    ensures Conserved(Run(INITIAL, steps).stock) && UniqueRows(Run(INITIAL, steps).stock.rows)
    ensures NeverLowers(steps) ==> NotOversold(Run(INITIAL, steps).stock)
  {
    if steps != [] {
      var n := |steps| - 1;
      var front := steps[..n];
      StockConservation(front);
      StepConserves(Run(INITIAL, front), steps[n]);
      if NeverLowers(steps) {
        assert NeverLowers(front) by {
          forall m | 0 <= m < |front|
            ensures !(front[m].Admin? && LowersStock(Run(INITIAL, front[..m]).stock, front[m].edit))
          {
            assert front[..m] == steps[..m];
          }
        }
      }
    }
  }

  /** A run in which no edit lowers stock never makes a confirmation fail on the stock check. */
  lemma ConfirmNeverRefused(steps: seq<Step>, k: nat)
    requires NeverLowers(steps)
    requires k < |Run(INITIAL, steps).stock.rows| && Run(INITIAL, steps).stock.rows[k].status == Reserved
    ensures Run(INITIAL, steps).stock.rows[k].sku in Run(INITIAL, steps).stock.skus
    ensures ConfirmAt(Run(INITIAL, steps).stock, k).Ok?
  {
    StockConservation(steps);
    ConfirmAtConserves(Run(INITIAL, steps).stock, k);
  }

  // ── Release completeness ────────────────────────────────────

  predicate HoldsNothing(st: Stock, o: nat) {
    forall i :: 0 <= i < |st.rows| ==> !(st.rows[i].order == o && st.rows[i].status == Reserved)
  }

  /** Catalog has handled a cancellation of `o`. */
  predicate CancelSeen(s: State, o: nat) {
    exists i :: 0 <= i < |s.log| && s.log[i] == OrderCancelled(o) && (CatalogGroup, i) in s.settled
  }

  /** Catalog is handed an OrderCreated it has no marker for. */
  predicate Creates(s: State, step: Step) {
    && step.Deliver? && step.group == CatalogGroup
    && step.event < |s.log| && s.log[step.event].OrderCreated?
    && (CatalogGroup, step.event) !in s.processed
  }

  /** An OrderCreated that comes after the order's OrderCancelled does not reserve. */
  ghost predicate NotLate(s: State, step: Step) {
    Creates(s, step) && CancelSeen(s, s.log[step.event].order) ==>
      !CatalogService.WouldReserve(s.stock, s.log[step.event].order, s.log[step.event].items, step.answer.db)
  }

  ghost predicate NothingLate(steps: seq<Step>) {
    forall n :: 0 <= n < |steps| ==> NotLate(Run(INITIAL, steps[..n]), steps[n])
  }

  /** First-in-first-out delivery per order: no OrderCreated is handled after the order's OrderCancelled. */
  ghost predicate FifoRun(steps: seq<Step>) {
    forall n :: 0 <= n < |steps| ==>
      var s := Run(INITIAL, steps[..n]);
      Creates(s, steps[n]) ==> !CancelSeen(s, s.log[steps[n].event].order)
  }

  lemma FifoIsNeverLate(steps: seq<Step>)
    requires FifoRun(steps)
    ensures NothingLate(steps)
  {
  }

  /** Events and settlements are never taken back. */
  predicate LogGrows(s: State, s': State) {
    s.log <= s'.log && s.settled <= s'.settled
  }

  lemma StepGrows(s: State, step: Step)
    ensures LogGrows(s, Apply(s, step))
  {
  }

  ghost predicate ReleasedInv(s: State) {
    && (forall g: Group, i: nat :: (g, i) in s.settled ==> i < |s.log|)
    && (forall o: nat :: CancelSeen(s, o) ==> HoldsNothing(s.stock, o))
  }

  lemma CreatedHoldsForItsOrderOnly(st: Stock, e: Event, db: CatalogService.DbAnswer, o: nat)
    requires Conserved(st) && HoldsNothing(st, o)
    requires e.OrderCreated? && e.order == o ==> !CatalogService.WouldReserve(st, o, e.items, db)
    ensures HoldsNothing(CatalogService.Handle(st, e, db).stock, o)
  {
    match e {
      case OrderCreated(p, items, _, _) => ReserveAllExactly(st, p, CatalogService.Lines(items));
      case OrderCancelled(p) =>
        var rows' := ReleaseAll(st, p).rows;
        forall i | 0 <= i < |rows'| ensures !(rows'[i].order == o && rows'[i].status == Reserved) {
          assert rows'[i].order == st.rows[i].order;
        }
      case _ =>
    }
  }

  /** A cancellation newly seen after a step was handled by that step. */
  lemma NewlySeen(s: State, step: Step, o: nat)
    requires ReleasedInv(s) && CancelSeen(Apply(s, step), o) && !CancelSeen(s, o)
    ensures step.Deliver? && step.group == CatalogGroup && step.event < |s.log|
    ensures s.log[step.event] == OrderCancelled(o)
    ensures (CatalogGroup, step.event) !in s.processed
  {
    var s' := Apply(s, step);
    var i :| 0 <= i < |s'.log| && s'.log[i] == OrderCancelled(o) && (CatalogGroup, i) in s'.settled;
    StepGrows(s, step);
    if (CatalogGroup, i) in s.settled {
      assert false;
    }
  }

  lemma StepKeepsReleased(s: State, step: Step)
    requires ReleasedInv(s) && Conserved(s.stock) && NotLate(s, step)
    ensures ReleasedInv(Apply(s, step))
  {
    var s' := Apply(s, step);
    StepGrows(s, step);
    forall o: nat | CancelSeen(s', o) ensures HoldsNothing(s'.stock, o) {
      if !CancelSeen(s, o) {
        NewlySeen(s, step, o);
        ReleaseAllConserves(s.stock, o);
      } else {
        match step {
          case Admin(edit) =>
          case ConfirmRow(k) =>
          case Deliver(g, i, a) =>
            if i < |s.log| && g == CatalogGroup && (g, i) !in s.processed {
              CreatedHoldsForItsOrderOnly(s.stock, s.log[i], a.db, o);
            }
          case _ =>
        }
      }
    }
  }

  lemma {:induction false} RunKeepsReleased(steps: seq<Step>)
    requires NothingLate(steps)
    ensures ReleasedInv(Run(INITIAL, steps))
  {
    if steps != [] {
      var n := |steps| - 1;
      var front := steps[..n];
      assert NothingLate(front) by {
        forall m | 0 <= m < |front| ensures NotLate(Run(INITIAL, front[..m]), front[m]) {
          assert front[..m] == steps[..m];
        }
      }
      RunKeepsReleased(front);
      StockConservation(front);
      StepKeepsReleased(Run(INITIAL, front), steps[n]);
    }
  }

  /**
   * Unless an OrderCreated reserves late, and so under first-in-first-out delivery: once catalog has
   * handled OrderCancelled the order holds no reserved row ever after.
   */
  lemma ReleaseIsFinal(steps: seq<Step>, o: nat)
    requires NothingLate(steps) && CancelSeen(Run(INITIAL, steps), o)
    ensures HoldsNothing(Run(INITIAL, steps).stock, o)
  {
    RunKeepsReleased(steps);
  }

  lemma {:induction false} CreatedHasItems(steps: seq<Step>)
    ensures forall i :: 0 <= i < |Run(INITIAL, steps).log| ==> HasItems(Run(INITIAL, steps).log[i])
  {
    if steps != [] {
      CreatedHasItems(steps[..|steps| - 1]);
      StepKeepsItems(Run(INITIAL, steps[..|steps| - 1]), steps[|steps| - 1]);
    }
  }

  predicate HasItems(e: Event) {
    e.OrderCreated? ==> e.items != []
  }

  lemma StepKeepsItems(s: State, step: Step)
    requires forall i :: 0 <= i < |s.log| ==> HasItems(s.log[i])
    ensures forall i :: 0 <= i < |Apply(s, step).log| ==> HasItems(Apply(s, step).log[i])
  {
    if step.Deliver? && step.group == PaymentGroup && step.event < |s.log| {
      var r := Payments.Handle(s.books, s.log[step.event], step.answer.gateway);
      if r.Ok? && r.value.event.Some? {
        Payments.WrittenFor(s.books, s.log[step.event], step.answer.gateway);
      }
    }
  }

  /**
   * The condition is exact: after any such run, catalog attempting an OrderCreated of an order it has
   * released leaves the order without reserved rows if and only if the attempt does not reserve.
   */
  lemma LateCreatedExactly(steps: seq<Step>, i: nat, a: Answer)
    requires NothingLate(steps) && Creates(Run(INITIAL, steps), Deliver(CatalogGroup, i, a))
    requires CancelSeen(Run(INITIAL, steps), Run(INITIAL, steps).log[i].order)
    ensures var s := Run(INITIAL, steps);
            HoldsNothing(Apply(s, Deliver(CatalogGroup, i, a)).stock, s.log[i].order)
            <==> !CatalogService.WouldReserve(s.stock, s.log[i].order, s.log[i].items, a.db)
  {
    var s := Run(INITIAL, steps);
    RunKeepsReleased(steps);
    CreatedHasItems(steps);
    assert HasItems(s.log[i]);
    AttemptHoldsExactly(s, i, a);
  }

  lemma AttemptHoldsExactly(s: State, i: nat, a: Answer)
    requires Creates(s, Deliver(CatalogGroup, i, a)) && s.log[i].items != [] && HoldsNothing(s.stock, s.log[i].order)
    ensures HoldsNothing(Apply(s, Deliver(CatalogGroup, i, a)).stock, s.log[i].order)
            <==> !CatalogService.WouldReserve(s.stock, s.log[i].order, s.log[i].items, a.db)
  {
    var e := s.log[i];
    var st := Apply(s, Deliver(CatalogGroup, i, a)).stock;
    CatalogService.ReservesExactly(s.stock, e.order, e.items, e.total, e.currency, a.db);
    if CatalogService.WouldReserve(s.stock, e.order, e.items, a.db) {
      assert st.rows[|s.stock.rows|] == Reservation(e.order, e.items[0].sku, e.items[0].qty, Reserved);
    }
  }
}
