/** Causality, reachable ledgers and money conservation over every run of the saga. */
module SagaCausality {
  import opened Orders
  import opened Inventory
  import opened Events
  import opened Saga
  import opened Balances

  // ── Causes within the log ───────────────────────────────────

  /** The first `effect` of `o` comes after its first `cause`. */
  predicate Follows(log: seq<Event>, o: nat, cause: Kind, effect: Kind) {
    First(log, effect, o) >= 0 ==> 0 <= First(log, cause, o) < First(log, effect, o)
  }

  predicate CausalLog(log: seq<Event>, o: nat) {
    && Follows(log, o, KCreated, KReserved)
    && Follows(log, o, KCreated, KReservationFailed)
    && Follows(log, o, KCreated, KCancelled)
    && Follows(log, o, KReserved, KAuthorized)
    && Follows(log, o, KReserved, KFailed)
    && Follows(log, o, KAuthorized, KConfirmed)
    && Follows(log, o, KConfirmed, KCaptured)
    && Follows(log, o, KConfirmed, KRetry)
    && Follows(log, o, KAuthorized, KVoided)
    && Follows(log, o, KCancelled, KVoided)
  }

  /** The events that must already be in the log when `e` is written. */
  predicate CauseOk(log: seq<Event>, e: Event) {
    match KindOf(e)
    case KCreated => true
    case KTimedOut => true
    case KReserved => First(log, KCreated, e.order) >= 0
    case KReservationFailed => First(log, KCreated, e.order) >= 0
    case KCancelled => First(log, KCreated, e.order) >= 0
    case KAuthorized => First(log, KReserved, e.order) >= 0
    case KFailed => First(log, KReserved, e.order) >= 0
    case KConfirmed => First(log, KAuthorized, e.order) >= 0
    case KCaptured => First(log, KConfirmed, e.order) >= 0
    case KRetry => First(log, KConfirmed, e.order) >= 0
    case KVoided => First(log, KAuthorized, e.order) >= 0 && First(log, KCancelled, e.order) >= 0
  }

  lemma FollowsAppend(log: seq<Event>, e: Event, o: nat, cause: Kind, effect: Kind)
    requires Follows(log, o, cause, effect) && cause != effect
    requires Is(e, effect, o) ==> First(log, cause, o) >= 0
    ensures Follows(log + [e], o, cause, effect)
  {
    FirstAppend(log, e, cause, o);
    FirstAppend(log, e, effect, o);
    FirstIsFirst(log, cause, o);
    FirstIsFirst(log, effect, o);
  }

  lemma CausalAppend(log: seq<Event>, e: Event, o: nat)
    requires CausalLog(log, o) && CauseOk(log, e)
    ensures CausalLog(log + [e], o)
  {
    FollowsAppend(log, e, o, KCreated, KReserved);
    FollowsAppend(log, e, o, KCreated, KReservationFailed);
    FollowsAppend(log, e, o, KCreated, KCancelled);
    FollowsAppend(log, e, o, KReserved, KAuthorized);
    FollowsAppend(log, e, o, KReserved, KFailed);
    FollowsAppend(log, e, o, KAuthorized, KConfirmed);
    FollowsAppend(log, e, o, KConfirmed, KCaptured);
    FollowsAppend(log, e, o, KConfirmed, KRetry);
    FollowsAppend(log, e, o, KAuthorized, KVoided);
    FollowsAppend(log, e, o, KCancelled, KVoided);
  }

  // ── The tables agree with the log ───────────────────────────

  /** An order's authorized amount and currency are those of its row. */
  ghost predicate RightAmount(orders: map<nat, OrderService.Order>, b: Ledger.Books, o: nat) {
    Ledger.StateOf(b, o) != Ledger.New ==>
      o in orders && AuthAmount(b, o) == orders[o].total && AuthCurrency(b, o) == orders[o].currency
  }

  /** Each ledger state is announced by exactly its event. */
  ghost predicate Announced(log: seq<Event>, b: Ledger.Books, o: nat) {
    && (First(log, KAuthorized, o) >= 0 <==> Ledger.StateOf(b, o) != Ledger.New)
    && (First(log, KCaptured, o) >= 0 <==> Ledger.StateOf(b, o) == Ledger.Captured)
    && (First(log, KVoided, o) >= 0 <==> Ledger.StateOf(b, o) == Ledger.Voided)
  }

  /** Every item of the order has a reservation row. */
  predicate RowsCover(rows: seq<Reservation>, o: nat, items: seq<Item>) {
    forall i :: 0 <= i < |items| ==> HasItemRow(rows, o, items[i])
  }

  predicate HasItemRow(rows: seq<Reservation>, o: nat, item: Item) {
    exists k :: 0 <= k < |rows| && rows[k].order == o && rows[k].sku == item.sku && rows[k].qty == item.qty
  }

  /** Payloads carry the order row's own data. */
  predicate PayloadOk(orders: map<nat, OrderService.Order>, e: Event) {
    match e
    case OrderCreated(o, items, total, currency) =>
      o in orders && items == orders[o].items && total == orders[o].total && currency == orders[o].currency
    case InventoryReservedEvent(o, lines, total, currency) =>
      o in orders && lines == CatalogService.Lines(orders[o].items)
      && total == orders[o].total && currency == orders[o].currency
    case _ => true
  }

  ghost predicate OrderOk(s: State, o: nat) {
    && CausalLog(s.log, o)
    && (First(s.log, KCreated, o) >= 0 <==> o in s.orders)
    && (o in s.orders ==> s.orders[o].total == OrderValue(s.orders[o].items))
    && Announced(s.log, s.books, o)
    && RightAmount(s.orders, s.books, o)
    && (First(s.log, KReserved, o) >= 0 && o in s.orders ==> RowsCover(s.stock.rows, o, s.orders[o].items))
  }

  ghost predicate CausalInv(s: State) {
    && Ledger.Shaped(s.books)
    && (forall i :: 0 <= i < |s.log| ==> PayloadOk(s.orders, s.log[i]))
    && (forall o: nat :: OrderOk(s, o))
  }

  lemma FlagAppend(log: seq<Event>, e: Event, k: Kind, o: nat)
    ensures First(log + [e], k, o) >= 0 <==> First(log, k, o) >= 0 || Is(e, k, o)
  {
    FirstAppend(log, e, k, o);
  }

  /** Which of the kinds that the tables answer to have been written, after one more event. */
  lemma FlagsAppend(log: seq<Event>, e: Event, o: nat)
    ensures First(log + [e], KCreated, o) >= 0 <==> First(log, KCreated, o) >= 0 || Is(e, KCreated, o)
    ensures First(log + [e], KReserved, o) >= 0 <==> First(log, KReserved, o) >= 0 || Is(e, KReserved, o)
    ensures First(log + [e], KAuthorized, o) >= 0 <==> First(log, KAuthorized, o) >= 0 || Is(e, KAuthorized, o)
    ensures First(log + [e], KCaptured, o) >= 0 <==> First(log, KCaptured, o) >= 0 || Is(e, KCaptured, o)
    ensures First(log + [e], KVoided, o) >= 0 <==> First(log, KVoided, o) >= 0 || Is(e, KVoided, o)
  {
    FlagAppend(log, e, KCreated, o);
    FlagAppend(log, e, KReserved, o);
    FlagAppend(log, e, KAuthorized, o);
    FlagAppend(log, e, KCaptured, o);
    FlagAppend(log, e, KVoided, o);
  }

  // ── Order rows: data never changes ──────────────────────────

  predicate SameData(orders: map<nat, OrderService.Order>, orders': map<nat, OrderService.Order>) {
    forall o | o in orders ::
      && o in orders'
      && orders'[o].items == orders[o].items
      && orders'[o].total == orders[o].total
      && orders'[o].currency == orders[o].currency
  }

  /** Writing an order event other than OrderCreated, with its cause in the log. */
  lemma OrderEventKeepsOrder(s: State, orders': map<nat, OrderService.Order>, e: Event, o: nat)
    requires OrderOk(s, o) && SameData(s.orders, orders') && orders'.Keys == s.orders.Keys
    requires TopicOf(e) == OrdersTopic && !e.OrderCreated? && CauseOk(s.log, e)
    ensures OrderOk(s.(orders := orders', log := s.log + [e]), o)
  {
    CausalAppend(s.log, e, o);
    FlagsAppend(s.log, e, o);
  }

  lemma OrderMoveKeepsCausal(s: State, w: OrderService.Written)
    requires CausalInv(s) && SameData(s.orders, w.orders) && w.orders.Keys == s.orders.Keys
    requires w.event.Some? ==>
               TopicOf(w.event.value) == OrdersTopic && !w.event.value.OrderCreated? && CauseOk(s.log, w.event.value)
    ensures CausalInv(s.(orders := w.orders, log := Append(s.log, w.event)))
  {
    var s' := s.(orders := w.orders, log := Append(s.log, w.event));
    forall i | 0 <= i < |s'.log| ensures PayloadOk(s'.orders, s'.log[i]) {
      if i < |s.log| {
        assert PayloadOk(s.orders, s.log[i]);
      }
    }
    forall o: nat ensures OrderOk(s', o) {
      assert OrderOk(s, o);
      if w.event.Some? {
        OrderEventKeepsOrder(s, w.orders, w.event.value, o);
      }
    }
  }

  lemma CreateKeepsOrder(s: State, id: nat, items: seq<Item>, currency: string, o: nat)
    requires OrderOk(s, o) && OrderService.Create(s.orders, id, items, currency).Ok?
    ensures OrderOk(Apply(s, CreateOrder(id, items, currency)), o)
  {
    var e := OrderService.Create(s.orders, id, items, currency).value.event.value;
    CausalAppend(s.log, e, o);
    FlagsAppend(s.log, e, o);
  }

  lemma CreateKeepsCausal(s: State, id: nat, items: seq<Item>, currency: string)
    requires CausalInv(s) && OrderService.Create(s.orders, id, items, currency).Ok?
    ensures CausalInv(Apply(s, CreateOrder(id, items, currency)))
  {
    var s' := Apply(s, CreateOrder(id, items, currency));
    forall i | 0 <= i < |s'.log| ensures PayloadOk(s'.orders, s'.log[i]) {
      if i < |s.log| {
        assert PayloadOk(s.orders, s.log[i]);
      }
    }
    forall o: nat ensures OrderOk(s', o) {
      CreateKeepsOrder(s, id, items, currency, o);
    }
  }

  lemma CancelKeepsCausal(s: State, id: nat)
    requires CausalInv(s) && OrderService.Cancel(s.orders, id).Ok?
    ensures var w := OrderService.Cancel(s.orders, id).value;
            CausalInv(s.(orders := w.orders, log := Append(s.log, w.event)))
  {
    assert OrderOk(s, id);
    OrderMoveKeepsCausal(s, OrderService.Cancel(s.orders, id).value);
  }

  lemma OrderGroupKeepsCausal(s: State, i: nat)
    requires CausalInv(s) && i < |s.log| && OrderService.Handle(s.orders, s.log[i]).Ok?
    ensures var w := OrderService.Handle(s.orders, s.log[i]).value;
            CausalInv(s.(orders := w.orders, log := Append(s.log, w.event)))
  {
    var e := s.log[i];
    OccursSo(s.log, i);
    match e {
      case PaymentFailed(o, _) => CancelKeepsCausal(s, o);
      case PaymentTimedOut(o) => CancelKeepsCausal(s, o);
      case _ => OrderMoveKeepsCausal(s, OrderService.Handle(s.orders, e).value);
    }
  }

  // ── Catalog ─────────────────────────────────────────────────

  /** Rows keep their order, SKU and quantity for ever. */
  predicate RowsKept(before: seq<Reservation>, after: seq<Reservation>) {
    && |before| <= |after|
    && forall k :: 0 <= k < |before| ==>
         after[k].order == before[k].order && after[k].sku == before[k].sku && after[k].qty == before[k].qty
  }

  lemma CoverKept(before: seq<Reservation>, after: seq<Reservation>, o: nat, items: seq<Item>)
    requires RowsKept(before, after) && RowsCover(before, o, items)
    ensures RowsCover(after, o, items)
  {
    forall i | 0 <= i < |items|
      ensures HasItemRow(after, o, items[i])
    {
      assert HasItemRow(before, o, items[i]);
      var k :| 0 <= k < |before| && before[k].order == o && before[k].sku == items[i].sku
               && before[k].qty == items[i].qty;
      assert after[k].order == o;
    }
  }

  lemma StockWriteKeepsCausal(s: State, st: Stock)
    requires CausalInv(s) && RowsKept(s.stock.rows, st.rows)
    ensures CausalInv(s.(stock := st))
  {
    var s' := s.(stock := st);
    forall o: nat ensures OrderOk(s', o) {
      assert OrderOk(s, o);
      if First(s.log, KReserved, o) >= 0 && o in s.orders {
        CoverKept(s.stock.rows, st.rows, o, s.orders[o].items);
      }
    }
  }

  lemma NewRowsCover(st: Stock, o: nat, items: seq<Item>)
    requires ReserveAll(st, o, CatalogService.Lines(items)).Ok?
    ensures RowsKept(st.rows, ReserveAll(st, o, CatalogService.Lines(items)).value.rows)
    ensures RowsCover(ReserveAll(st, o, CatalogService.Lines(items)).value.rows, o, items)
  {
    var lines := CatalogService.Lines(items);
    ReserveAllExactly(st, o, lines);
    var rows := ReserveAll(st, o, lines).value.rows;
    forall i | 0 <= i < |items|
      ensures HasItemRow(rows, o, items[i])
    {
      assert rows[|st.rows| + i] == NewRows(o, lines)[i];
    }
  }

  /** Writing an event of the catalog topic whose cause is in the log and whose rows are in place. */
  lemma CatalogEventKeepsCausal(s: State, e: Event)
    requires CausalInv(s) && TopicOf(e) == CatalogTopic && CauseOk(s.log, e) && PayloadOk(s.orders, e)
    requires e.InventoryReservedEvent? ==>
               e.order in s.orders && RowsCover(s.stock.rows, e.order, s.orders[e.order].items)
    ensures CausalInv(s.(log := s.log + [e]))
  {
    var s' := s.(log := s.log + [e]);
    forall o: nat ensures OrderOk(s', o) {
      assert OrderOk(s, o);
      CausalAppend(s.log, e, o);
      FlagsAppend(s.log, e, o);
    }
  }

  lemma CatalogGroupKeepsCausal(s: State, i: nat, db: CatalogService.DbAnswer)
    requires CausalInv(s) && i < |s.log|
    ensures var w := CatalogService.Handle(s.stock, s.log[i], db);
            CausalInv(s.(stock := w.stock, log := Append(s.log, w.event)))
  {
    var e := s.log[i];
    var w := CatalogService.Handle(s.stock, e, db);
    OccursSo(s.log, i);
    assert PayloadOk(s.orders, e);
    match e {
      case OrderCreated(o, items, _, _) =>
        if w.committed {
          NewRowsCover(s.stock, o, items);
          StockWriteKeepsCausal(s, w.stock);
          CatalogEventKeepsCausal(s.(stock := w.stock), w.event.value);
        } else if db.noteOk {
          CatalogEventKeepsCausal(s, w.event.value);
        }
      case _ => StockWriteKeepsCausal(s, w.stock);
    }
  }

  // ── Payment ─────────────────────────────────────────────────

  /** The authorization read back after a later transaction of the same order. */
  lemma AuthStable(b: Ledger.Books, b': Ledger.Books, o: nat, state: Ledger.PaymentState)
    requires Ledger.Shaped(b) && Ledger.Advances(b, b', o, state) && Ledger.StateOf(b, o) == Ledger.Authorized
    ensures AuthAmount(b', o) == AuthAmount(b, o) && AuthCurrency(b', o) == AuthCurrency(b, o)
  {
    Ledger.StateTellsShape(b, o);
  }

  lemma AuthOfOthers(b: Ledger.Books, b': Ledger.Books, o: nat, state: Ledger.PaymentState, p: nat)
    requires Ledger.Shaped(b) && Ledger.Advances(b, b', o, state) && p != o
    ensures AuthAmount(b', p) == AuthAmount(b, p) && AuthCurrency(b', p) == AuthCurrency(b, p)
  {
    var ids := Ledger.IdsOf(b.txs, p);
    assert Ledger.IdsOf(b'.txs, p) == ids;
    if ids != [] {
      OldEntryStays(b, b', ids[|ids| - 1]);
    }
  }

  lemma OldEntryStays(b: Ledger.Books, b': Ledger.Books, id: nat)
    requires Ledger.Paired(b) && b.entries <= b'.entries && id < |b.txs|
    ensures 2 * id < |b.entries| <= |b'.entries| && b'.entries[2 * id] == b.entries[2 * id]
  {
  }

  /** A payment event written without moving the ledger. */
  lemma StallKeepsOrder(s: State, e: Event, o: nat)
    requires OrderOk(s, o) && CauseOk(s.log, e) && Payments.StallsOn(e, e.order)
    ensures OrderOk(s.(log := s.log + [e]), o)
  {
    CausalAppend(s.log, e, o);
    FlagsAppend(s.log, e, o);
  }

  /** A ledger advance on another order. */
  lemma AdvanceKeepsOthers(s: State, b: Ledger.Books, e: Event, state: Ledger.PaymentState, o: nat)
    requires OrderOk(s, o) && CauseOk(s.log, e) && TopicOf(e) == PaymentsTopic
    requires Ledger.Shaped(s.books) && Ledger.Advances(s.books, b, e.order, state) && o != e.order
    ensures OrderOk(s.(books := b, log := s.log + [e]), o)
  {
    CausalAppend(s.log, e, o);
    FlagsAppend(s.log, e, o);
    AuthOfOthers(s.books, b, e.order, state, o);
  }

  /** A ledger advance on the event's own order, announced by the matching event. */
  lemma AdvanceKeepsOrder(s: State, b: Ledger.Books, e: Event, state: Ledger.PaymentState)
    requires OrderOk(s, e.order) && CauseOk(s.log, e)
    requires Ledger.Shaped(s.books) && Ledger.Advances(s.books, b, e.order, state)
    requires
      || (e.PaymentAuthorizedEvent? && Ledger.StateOf(s.books, e.order) == Ledger.New && state == Ledger.Authorized)
      || (e.PaymentCaptured? && Ledger.StateOf(s.books, e.order) == Ledger.Authorized && state == Ledger.Captured)
      || (e.PaymentVoided? && Ledger.StateOf(s.books, e.order) == Ledger.Authorized && state == Ledger.Voided)
    requires RightAmount(s.orders, b, e.order)
    ensures OrderOk(s.(books := b, log := s.log + [e]), e.order)
  {
    CausalAppend(s.log, e, e.order);
    FlagsAppend(s.log, e, e.order);
  }

  lemma NewAmountIsRight(s: State, b: Ledger.Books, e: Event)
    requires e.InventoryReservedEvent? && PayloadOk(s.orders, e) && Ledger.Shaped(s.books)
    requires Ledger.StateOf(s.books, e.order) == Ledger.New && Ledger.Advances(s.books, b, e.order, Ledger.Authorized)
    requires Ledger.AmountOf(b, |s.books.txs|) == e.total && b.entries[2 * |s.books.txs|].account.currency == e.currency
    ensures RightAmount(s.orders, b, e.order)
  {
    Ledger.StateTellsShape(s.books, e.order);
  }

  /** A payment write keeps the invariant of order `o`, given the cause of its event. */
  lemma PaymentWriteKeepsOrder(s: State, i: nat, g: Payments.GatewayAnswer, o: nat)
    requires CausalInv(s) && i < |s.log| && Payments.Handle(s.books, s.log[i], g).Ok?
    requires var w := Payments.Handle(s.books, s.log[i], g).value; w.event.Some? && CauseOk(s.log, w.event.value)
    ensures var w := Payments.Handle(s.books, s.log[i], g).value;
            OrderOk(s.(books := w.books, log := s.log + [w.event.value]), o)
  {
    var e := s.log[i];
    var w := Payments.Handle(s.books, e, g).value;
    var out := w.event.value;
    assert OrderOk(s, o) && OrderOk(s, e.order) && PayloadOk(s.orders, e);
    Payments.HandleAdvances(s.books, e, g);
    if w.books == s.books && Payments.StallsOn(out, e.order) {
      StallKeepsOrder(s, out, o);
    } else {
      var state := Ledger.StateOf(w.books, e.order);
      if o != e.order {
        AdvanceKeepsOthers(s, w.books, out, state, o);
      } else {
        if e.InventoryReservedEvent? {
          NewAmountIsRight(s, w.books, e);
        } else {
          AuthStable(s.books, w.books, o, state);
        }
        AdvanceKeepsOrder(s, w.books, out, state);
      }
    }
  }

  lemma PaymentEventIsCaused(s: State, i: nat, g: Payments.GatewayAnswer)
    requires CausalInv(s) && i < |s.log| && Payments.Handle(s.books, s.log[i], g).Ok?
    requires Payments.Handle(s.books, s.log[i], g).value.event.Some?
    ensures CauseOk(s.log, Payments.Handle(s.books, s.log[i], g).value.event.value)
  {
    OccursSo(s.log, i);
    Payments.WrittenFor(s.books, s.log[i], g);
    assert OrderOk(s, s.log[i].order);
  }

  lemma PaymentGroupKeepsCausal(s: State, i: nat, g: Payments.GatewayAnswer)
    requires CausalInv(s) && i < |s.log| && Payments.Handle(s.books, s.log[i], g).Ok?
    ensures var w := Payments.Handle(s.books, s.log[i], g).value;
            CausalInv(s.(books := w.books, log := Append(s.log, w.event)))
  {
    var w := Payments.Handle(s.books, s.log[i], g).value;
    Payments.HandleAdvances(s.books, s.log[i], g);
    if w.event.Some? {
      PaymentEventIsCaused(s, i, g);
      var s' := s.(books := w.books, log := s.log + [w.event.value]);
      forall o: nat ensures OrderOk(s', o) {
        PaymentWriteKeepsOrder(s, i, g, o);
      }
    }
  }

  // ── Every run ───────────────────────────────────────────────

  lemma TimeOutKeepsCausal(s: State, id: nat)
    requires CausalInv(s)
    ensures CausalInv(Apply(s, TimeOut(id)))
  {
    var s' := Apply(s, TimeOut(id));
    forall o: nat ensures OrderOk(s', o) {
      assert OrderOk(s, o);
      TimeOutKeepsOrder(s, id, o);
    }
    forall i | 0 <= i < |s'.log| ensures PayloadOk(s'.orders, s'.log[i]) {
      assert i < |s.log| ==> PayloadOk(s.orders, s.log[i]);
    }
  }

  lemma TimeOutKeepsOrder(s: State, id: nat, o: nat)
    requires OrderOk(s, o)
    ensures OrderOk(Apply(s, TimeOut(id)), o)
  {
    var e := PaymentTimedOut(id);
    CausalAppend(s.log, e, o);
    FlagsAppend(s.log, e, o);
  }

  lemma BookkeepingIsFree(s: State, s': State)
    requires CausalInv(s)
    requires s'.orders == s.orders && s'.stock == s.stock && s'.books == s.books && s'.log == s.log
    ensures CausalInv(s')
  {
    forall o: nat ensures OrderOk(s', o) {
      assert OrderOk(s, o);
    }
  }

  lemma DeliverKeepsCausal(s: State, g: Group, i: nat, a: Answer)
    requires CausalInv(s) && i < |s.log|
    ensures CausalInv(Attempt(s, g, s.log[i], a).0)
  {
    match g {
      case OrderGroup =>
        if OrderService.Handle(s.orders, s.log[i]).Ok? {
          OrderGroupKeepsCausal(s, i);
        }
      case CatalogGroup => CatalogGroupKeepsCausal(s, i, a.db);
      case PaymentGroup =>
        if Payments.Handle(s.books, s.log[i], a.gateway).Ok? {
          PaymentGroupKeepsCausal(s, i, a.gateway);
        }
    }
  }

  lemma StepKeepsCausal(s: State, step: Step)
    requires CausalInv(s)
    ensures CausalInv(Apply(s, step))
  {
    match step {
      case CreateOrder(id, items, currency) =>
        if OrderService.Create(s.orders, id, items, currency).Ok? {
          CreateKeepsCausal(s, id, items, currency);
        }
      case BuyerCancel(id) =>
        if OrderService.Cancel(s.orders, id).Ok? {
          CancelKeepsCausal(s, id);
        }
      case TimeOut(id) => TimeOutKeepsCausal(s, id);
      case Admin(edit) => StockWriteKeepsCausal(s, Apply(s, step).stock);
      case ConfirmRow(k) => StockWriteKeepsCausal(s, Apply(s, step).stock);
      case Deliver(g, i, a) =>
        if Apply(s, step) != s {
          DeliverKeepsCausal(s, g, i, a);
          BookkeepingIsFree(Attempt(s, g, s.log[i], a).0, Apply(s, step));
        }
      case ForgetMarker(g, i) => BookkeepingIsFree(s, Apply(s, step));
    }
  }

  lemma {:induction false} RunKeepsCausal(steps: seq<Step>)
    ensures CausalInv(Run(INITIAL, steps))
  {
    if steps != [] {
      RunKeepsCausal(steps[..|steps| - 1]);
      StepKeepsCausal(Run(INITIAL, steps[..|steps| - 1]), steps[|steps| - 1]);
    }
  }

  // ── Main theorems ───────────────────────────────────────────

  /** A transaction of this type and status exists for the order. */
  predicate HasTx(b: Ledger.Books, o: nat, kind: Ledger.TransactionType, status: Ledger.TransactionStatus) {
    exists i :: 0 <= i < |b.txs| && b.txs[i].order == o && b.txs[i].kind == kind && b.txs[i].status == status
  }

  lemma TxIsListed(b: Ledger.Books, o: nat, kind: Ledger.TransactionType, status: Ledger.TransactionStatus)
    ensures HasTx(b, o, kind, status) <==>
            exists i :: 0 <= i < |Ledger.IdsOf(b.txs, o)|
              && b.txs[Ledger.IdsOf(b.txs, o)[i]].kind == kind && b.txs[Ledger.IdsOf(b.txs, o)[i]].status == status
  {
    var ids := Ledger.IdsOf(b.txs, o);
    if i :| 0 <= i < |b.txs| && b.txs[i].order == o && b.txs[i].kind == kind && b.txs[i].status == status {
      var k := Ledger.IdIsListed(b.txs, o, i);
      assert b.txs[ids[k]].kind == kind && b.txs[ids[k]].status == status;
    }
    if i :| 0 <= i < |ids| && b.txs[ids[i]].kind == kind && b.txs[ids[i]].status == status {
      var t := ids[i];
      assert 0 <= t < |b.txs| && b.txs[t].order == o && b.txs[t].kind == kind && b.txs[t].status == status;
    }
  }

  lemma TxTellsState(b: Ledger.Books, o: nat)
    requires Ledger.Shaped(b)
    ensures HasTx(b, o, Ledger.Capture, Ledger.Posted) <==> Ledger.StateOf(b, o) == Ledger.Captured
    ensures HasTx(b, o, Ledger.Void, Ledger.Posted) <==> Ledger.StateOf(b, o) == Ledger.Voided
    ensures HasTx(b, o, Ledger.Authorization, Ledger.Posted)
            <==> Ledger.StateOf(b, o) == Ledger.Authorized || Ledger.StateOf(b, o) == Ledger.Captured
  {
    Ledger.StateTellsShape(b, o);
    ListedOfTwo(b, o, Ledger.Capture, Ledger.Posted);
    ListedOfTwo(b, o, Ledger.Void, Ledger.Posted);
    ListedOfTwo(b, o, Ledger.Authorization, Ledger.Posted);
  }

  lemma ListedOfTwo(b: Ledger.Books, o: nat, kind: Ledger.TransactionType, status: Ledger.TransactionStatus)
    requires |Ledger.IdsOf(b.txs, o)| <= 2
    ensures var ids := Ledger.IdsOf(b.txs, o);
            HasTx(b, o, kind, status) <==>
              || (|ids| >= 1 && b.txs[ids[0]].kind == kind && b.txs[ids[0]].status == status)
              || (|ids| == 2 && b.txs[ids[1]].kind == kind && b.txs[ids[1]].status == status)
  {
    TxIsListed(b, o, kind, status);
  }

  /**
   * Saga causality, in every run with any reordering across topics, duplicates, cancels and lost
   * markers. A posted capture implies an earlier OrderConfirmed, which implies an earlier
   * PaymentAuthorized with its posted authorization, which implies an earlier InventoryReserved with
   * a reservation row for every item, which implies an earlier OrderCreated.
   */
  lemma Causality(steps: seq<Step>, o: nat)
    ensures var s := Run(INITIAL, steps);
            && (HasTx(s.books, o, Ledger.Capture, Ledger.Posted) ==>
                  && HasTx(s.books, o, Ledger.Authorization, Ledger.Posted)
                  && 0 <= First(s.log, KConfirmed, o) < First(s.log, KCaptured, o))
            && (First(s.log, KConfirmed, o) >= 0 ==>
                  && 0 <= First(s.log, KAuthorized, o) < First(s.log, KConfirmed, o)
                  && (|| HasTx(s.books, o, Ledger.Authorization, Ledger.Posted)
                      || HasTx(s.books, o, Ledger.Void, Ledger.Posted)))
            && (First(s.log, KAuthorized, o) >= 0 ==> 0 <= First(s.log, KReserved, o) < First(s.log, KAuthorized, o))
            && (First(s.log, KReserved, o) >= 0 ==>
                  && 0 <= First(s.log, KCreated, o) < First(s.log, KReserved, o)
                  && o in s.orders
                  && RowsCover(s.stock.rows, o, s.orders[o].items))
            && (First(s.log, KVoided, o) >= 0 ==> 0 <= First(s.log, KCancelled, o) < First(s.log, KVoided, o))
  {
    var s := Run(INITIAL, steps);
    RunKeepsCausal(steps);
    assert OrderOk(s, o);
    TxTellsState(s.books, o);
    Ledger.StateTellsShape(s.books, o);
  }

  /**
   * Reachable ledgers: an order's transactions are none, a posted authorization, that plus a posted
   * capture, or a discarded authorization plus a posted void. So no order is both captured and
   * voided, none is authorized twice, and the derived state is one of four.
   */
  lemma ReachableLedgers(steps: seq<Step>, o: nat)
    ensures var b := Run(INITIAL, steps).books;
            var list := Ledger.ListTransactions(b, o);
            || (list == [] && Ledger.StateOf(b, o) == Ledger.New)
            || (|list| == 1 && list[0].kind == Ledger.Authorization && list[0].status == Ledger.Posted
                && Ledger.StateOf(b, o) == Ledger.Authorized)
            || (|list| == 2 && list[1].kind == Ledger.Authorization && list[1].status == Ledger.Posted
                && list[0].kind == Ledger.Capture && list[0].status == Ledger.Posted
                && Ledger.StateOf(b, o) == Ledger.Captured)
            || (|list| == 2 && list[1].kind == Ledger.Authorization && list[1].status == Ledger.Discarded
                && list[0].kind == Ledger.Void && list[0].status == Ledger.Posted
                && Ledger.StateOf(b, o) == Ledger.Voided)
  {
    RunKeepsCausal(steps);
    Ledger.StateTellsShape(Run(INITIAL, steps).books, o);
  }

  /**
   * Money conservation: in every reachable state debits equal credits in each currency; every amount
   * moved for an order is the sum over its lines of quantity times unit price; and for an order in USD
   * the gateway holds that amount exactly while the payment is authorized.
   */
  lemma MoneyConservation(steps: seq<Step>, o: nat, currency: string)
    ensures var s := Run(INITIAL, steps);
            && Total(s.books.entries, s.books.txs, currency, Ledger.Debit, false)
               == Total(s.books.entries, s.books.txs, currency, Ledger.Credit, false)
            && |s.books.entries| == 2 * |s.books.txs|
            && (forall i :: 0 <= i < |s.books.txs| && s.books.txs[i].order == o ==>
                  o in s.orders && Ledger.AmountOf(s.books, i) == OrderValue(s.orders[o].items))
            && (o in s.orders && s.orders[o].currency == "USD" ==>
                  Balance(s.books, Ledger.Account(Ledger.GatewayHolding, o, "USD"))
                  == if Ledger.StateOf(s.books, o) == Ledger.Authorized then OrderValue(s.orders[o].items) else 0)
  {
    var s := Run(INITIAL, steps);
    RunKeepsCausal(steps);
    assert OrderOk(s, o);
    DebitsEqualCredits(s.books, currency, false);
    Ledger.StateTellsShape(s.books, o);
    Ledger.IdsComplete(s.books.txs, o);
    var ids := Ledger.IdsOf(s.books.txs, o);
    forall i | 0 <= i < |s.books.txs| && s.books.txs[i].order == o
      ensures o in s.orders && Ledger.AmountOf(s.books, i) == OrderValue(s.orders[o].items)
    {
      assert i in ids;
    }
    if o in s.orders && s.orders[o].currency == "USD" {
      UsdHolding(s.books, o);
    }
  }

  // ── Orders that name a SKU twice ────────────────────────────

  predicate DistinctLines(e: Event) {
    e.InventoryReservedEvent? ==> forall i, j :: 0 <= i < j < |e.lines| ==> e.lines[i].sku != e.lines[j].sku
  }

  lemma StepKeepsDistinctLines(s: State, step: Step)
    requires forall n :: 0 <= n < |s.log| ==> DistinctLines(s.log[n])
    ensures forall n :: 0 <= n < |Apply(s, step).log| ==> DistinctLines(Apply(s, step).log[n])
  {
    if step.Deliver? && step.event < |s.log| {
      var e := s.log[step.event];
      match step.group {
        case OrderGroup =>
        case CatalogGroup =>
          if e.OrderCreated? {
            ReserveAllExactly(s.stock, e.order, CatalogService.Lines(e.items));
          }
        case PaymentGroup =>
          var r := Payments.Handle(s.books, e, step.answer.gateway);
          if r.Ok? && r.value.event.Some? {
            Payments.WrittenFor(s.books, e, step.answer.gateway);
          }
      }
    }
  }

  lemma {:induction false} RunKeepsDistinctLines(steps: seq<Step>)
    ensures forall n :: 0 <= n < |Run(INITIAL, steps).log| ==> DistinctLines(Run(INITIAL, steps).log[n])
  {
    if steps != [] {
      RunKeepsDistinctLines(steps[..|steps| - 1]);
      StepKeepsDistinctLines(Run(INITIAL, steps[..|steps| - 1]), steps[|steps| - 1]);
    }
  }

  /** In every run an order that names one SKU on two lines is never reserved, so never paid nor confirmed. */
  lemma RepeatedSkuNeverReserved(steps: seq<Step>, o: nat, i: nat, j: nat)
    requires o in Run(INITIAL, steps).orders && i < j < |Run(INITIAL, steps).orders[o].items|
    requires Run(INITIAL, steps).orders[o].items[i].sku == Run(INITIAL, steps).orders[o].items[j].sku
    ensures var s := Run(INITIAL, steps);
            && First(s.log, KReserved, o) < 0 && First(s.log, KConfirmed, o) < 0
            && Ledger.StateOf(s.books, o) == Ledger.New
  {
    if First(Run(INITIAL, steps).log, KReserved, o) >= 0 {
      ReservedNamesDistinctSkus(steps, o, i, j);
    }
    Causality(steps, o);
    RunKeepsCausal(steps);
    assert OrderOk(Run(INITIAL, steps), o);
  }

  lemma ReservedNamesDistinctSkus(steps: seq<Step>, o: nat, i: nat, j: nat)
    requires First(Run(INITIAL, steps).log, KReserved, o) >= 0
    requires o in Run(INITIAL, steps).orders && i < j < |Run(INITIAL, steps).orders[o].items|
    ensures Run(INITIAL, steps).orders[o].items[i].sku != Run(INITIAL, steps).orders[o].items[j].sku
  {
    var s := Run(INITIAL, steps);
    RunKeepsCausal(steps);
    RunKeepsDistinctLines(steps);
    FirstIsFirst(s.log, KReserved, o);
    var e := s.log[First(s.log, KReserved, o)];
    assert PayloadOk(s.orders, e) && DistinctLines(e);
    assert e.lines[i].sku != e.lines[j].sku;
  }

  /** Such an order is accepted when it is created. */
  lemma RepeatedSkuIsCreatable()
    ensures Creatable([Item(7, 1, MIN_ORDER_AMOUNT), Item(7, 1, MIN_ORDER_AMOUNT)], "USD")
  {
    var items := [Item(7, 1, MIN_ORDER_AMOUNT), Item(7, 1, MIN_ORDER_AMOUNT)];
    assert items[..1] == [Item(7, 1, MIN_ORDER_AMOUNT)] && items[..1][..0] == [];
    assert OrderValue(items[..1]) == MIN_ORDER_AMOUNT;
  }
}
