/**
 * Quiescent consistency: in orderly runs, once every message has been consumed, each order is wholly
 * confirmed or wholly undone. The proof follows one order through a finite record of what has been
 * written and who has consumed it.
 */
module SagaQuiescence {
  import opened Common
  import opened Orders
  import opened Inventory
  import opened Events
  import opened Saga
  import opened SagaHistory
  import opened SagaCausality
  import opened SagaStock
  import opened SagaRetry

  // ── Orderly runs ────────────────────────────────────────────

  /**
   * Refusals for good: a catalog answer that the order service refuses comes to a cancelled order. Any
   * other failed attempt is to be made again, or, for a refused reservation, announced.
   */
  predicate IsFinal(g: Group, e: Event) {
    g == OrderGroup && (e.InventoryReservedEvent? || e.InventoryReservationFailed?)
  }

  predicate IsCreation(g: Group, e: Event) {
    g == CatalogGroup && e.OrderCreated?
  }

  /** Kind `k` of order `o` has been written; `g` has consumed one. */
  predicate Sent(s: State, k: Kind, o: nat) {
    First(s.log, k, o) >= 0
  }

  predicate Seen(s: State, g: Group, k: Kind, o: nat) {
    exists i :: 0 <= i < |s.log| && Is(s.log[i], k, o) && Done(s, g, i)
  }

  /** Group `g` has consumed event `i`: it is processed, refused for good, or its refusal is announced. */
  predicate Done(s: State, g: Group, i: nat)
    requires i < |s.log|
  {
    || (g, i) in s.processed
    || (IsFinal(g, s.log[i]) && (g, i) in s.settled)
    || (IsCreation(g, s.log[i]) && Sent(s, KReservationFailed, s.log[i].order))
  }

  /**
   * The one condition on deliveries: an OrderCreated whose refusal has been announced is not delivered
   * again when the reservation would succeed. Attempts may otherwise fail and be repeated, duplicated and
   * reordered at will.
   */
  ghost predicate OrderlyDelivery(s: State, g: Group, i: nat, a: Answer) {
    i < |s.log| && IsCreation(g, s.log[i]) && (g, i) !in s.processed && Sent(s, KReservationFailed, s.log[i].order) ==>
      !CatalogService.WouldReserve(s.stock, s.log[i].order, s.log[i].items, a.db)
  }

  /** No buyer cancel, timeout, early confirmation or deleted marker. */
  ghost predicate Orderly(s: State, step: Step) {
    match step
    case CreateOrder(_, _, _) => true
    case Admin(_) => true
    case Deliver(g, i, a) => OrderlyDelivery(s, g, i, a)
    case _ => false
  }

  ghost predicate OrderlyRun(steps: seq<Step>) {
    forall n :: 0 <= n < |steps| ==> Orderly(Run(INITIAL, steps[..n]), steps[n])
  }

  /** Every subscriber has consumed every event. */
  ghost predicate Quiescent(s: State) {
    forall g: Group, i: nat :: i < |s.log| && Subscribes(g, TopicOf(s.log[i])) ==> Done(s, g, i)
  }

  // ── One order's view of the saga ────────────────────────────

  datatype View = View(
    known: bool, status: OrderStatus,
    created: bool, reserved: bool, unreserved: bool, authorized: bool,
    failed: bool, confirmed: bool, cancelled: bool, captured: bool,
    cTaken: bool, cCancelled: bool, pReserved: bool, pCancelled: bool,
    oReserved: bool, oUnreserved: bool, oAuthorized: bool, oFailed: bool,
    pay: Ledger.PaymentState, held: bool, nothing: bool,
    outcomes: nat, single: bool)

  /** Each item of the order has a row in status reserved. */
  predicate AllHeld(rows: seq<Reservation>, o: nat, items: seq<Item>) {
    forall i :: 0 <= i < |items| ==> Reservation(o, items[i].sku, items[i].qty, Reserved) in rows
  }

  predicate Single(log: seq<Event>, o: nat) {
    && Count(log, KReserved, o) <= 1 && Count(log, KAuthorized, o) <= 1 && Count(log, KFailed, o) <= 1
    && Count(log, KCreated, o) <= 1 && Count(log, KCancelled, o) <= 1 && Count(log, KConfirmed, o) <= 1
  }

  /** Catalog's reservation for the order has committed. */
  predicate Taken(s: State, o: nat) {
    exists i :: 0 <= i < |s.log| && Is(s.log[i], KCreated, o) && (CatalogGroup, i) in s.processed
  }

  ghost function ViewOf(s: State, o: nat): View {
    View(
      o in s.orders, if o in s.orders then s.orders[o].status else Pending,
      Sent(s, KCreated, o), Sent(s, KReserved, o), Sent(s, KReservationFailed, o), Sent(s, KAuthorized, o),
      Sent(s, KFailed, o), Sent(s, KConfirmed, o), Sent(s, KCancelled, o), Sent(s, KCaptured, o),
      Taken(s, o), Seen(s, CatalogGroup, KCancelled, o),
      Seen(s, PaymentGroup, KReserved, o), Seen(s, PaymentGroup, KCancelled, o),
      Seen(s, OrderGroup, KReserved, o), Seen(s, OrderGroup, KReservationFailed, o),
      Seen(s, OrderGroup, KAuthorized, o), Seen(s, OrderGroup, KFailed, o),
      Ledger.StateOf(s.books, o),
      o in s.orders && AllHeld(s.stock.rows, o, s.orders[o].items), HoldsNothing(s.stock, o),
      Outcomes(s.log, o), Single(s.log, o))
  }

  /** The order's status is determined by what the order service has consumed. */
  function StatusFrom(v: View): OrderStatus {
    if v.oUnreserved || v.oFailed then Cancelled
    else if v.oAuthorized then OrderStatus.Confirmed
    else if v.oReserved then InventoryReserved
    else Pending
  }

  /** What every orderly run keeps about one order. */
  predicate Phase(v: View) {
    && v.single
    && (v.known <==> v.created)
    && (v.known ==> v.status == StatusFrom(v))
    // catalog
    && (v.reserved <==> v.cTaken)
    && !(v.reserved && v.unreserved)
    && (if v.reserved && !v.cCancelled then v.held else v.nothing)
    // payment
    && (v.authorized <==> v.pay != Ledger.New)
    && (v.captured <==> v.pay == Ledger.Captured)
    && (v.pReserved <==> v.authorized || v.failed)
    && (v.authorized && v.failed ==> v.outcomes >= 1 && !v.captured && v.oAuthorized)
    && (v.captured ==> v.outcomes >= 1)
    && (v.pay == Ledger.Voided <==> v.authorized && v.pCancelled)
    // order
    && (v.confirmed <==> v.oAuthorized)
    && (v.cancelled <==> v.oFailed)
    && (v.oAuthorized ==> v.oReserved)
    // causes
    && (v.reserved || v.unreserved || v.cancelled ==> v.created)
    && (v.authorized || v.failed ==> v.reserved)
    && (v.confirmed ==> v.authorized)
    && (v.captured ==> v.confirmed)
  }

  ghost predicate Sound(s: State) {
    HistoryInv(s) && CausalInv(s) && ChainInv(s) && Conserved(s.stock) && MarksAreOld(s)
  }

  ghost predicate MarksAreOld(s: State) {
    forall g: Group, i: nat :: (g, i) in s.settled || (g, i) in s.processed ==> i < |s.log|
  }

  ghost predicate PhaseInv(s: State) {
    Sound(s) && forall o: nat :: Phase(ViewOf(s, o))
  }

  // ── How writing and settling change the view ────────────────

  /** The bookkeeping of one attempt. */
  ghost predicate Attempted(s: State, s': State, g: Group, i: nat, out: Option<Event>) {
    && i < |s.log| && (g, i) !in s.processed
    && s'.log == Append(s.log, out)
    && s'.settled == s.settled + {(g, i)}
    && s.processed <= s'.processed <= s.processed + {(g, i)}
    && MarksAreOld(s)
  }

  lemma SeenGrows(s: State, s': State, g: Group, i: nat, out: Option<Event>, h: Group, k: Kind, o: nat)
    requires Attempted(s, s', g, i, out) && !(h == CatalogGroup && k == KCreated)
    ensures Seen(s', h, k, o) <==> Seen(s, h, k, o) || (h == g && Is(s.log[i], k, o) && Done(s', g, i))
  {
    if Seen(s', h, k, o) {
      var j :| 0 <= j < |s'.log| && Is(s'.log[j], k, o) && Done(s', h, j);
      assert j < |s.log| && s'.log[j] == s.log[j];
      if !(h == g && j == i) {
        assert Done(s, h, j);
      }
    }
    if Seen(s, h, k, o) {
      var j :| 0 <= j < |s.log| && Is(s.log[j], k, o) && Done(s, h, j);
      assert s'.log[j] == s.log[j] && Done(s', h, j);
    }
    if h == g && Is(s.log[i], k, o) && Done(s', g, i) {
      assert s'.log[i] == s.log[i];
    }
  }

  lemma TakenGrows(s: State, s': State, g: Group, i: nat, out: Option<Event>, o: nat)
    requires Attempted(s, s', g, i, out)
    ensures Taken(s', o) <==> Taken(s, o) || (g == CatalogGroup && Is(s.log[i], KCreated, o) && (g, i) in s'.processed)
  {
    if Taken(s', o) {
      var j :| 0 <= j < |s'.log| && Is(s'.log[j], KCreated, o) && (CatalogGroup, j) in s'.processed;
      assert j < |s.log| && s'.log[j] == s.log[j];
    }
    if Taken(s, o) {
      var j :| 0 <= j < |s.log| && Is(s.log[j], KCreated, o) && (CatalogGroup, j) in s.processed;
      assert s'.log[j] == s.log[j];
    }
    if g == CatalogGroup && Is(s.log[i], KCreated, o) && (g, i) in s'.processed {
      assert s'.log[i] == s.log[i];
    }
  }

  lemma SentGrows(s: State, s': State, out: Option<Event>, k: Kind, o: nat)
    requires s'.log == Append(s.log, out)
    ensures Sent(s', k, o) <==> Sent(s, k, o) || (out.Some? && Is(out.value, k, o))
  {
    if out.Some? {
      FirstAppend(s.log, out.value, k, o);
    }
  }

  /** An event of a kind written once is not seen before it is consumed. */
  lemma NotSeenYet(s: State, g: Group, i: nat)
    requires i < |s.log| && !Done(s, g, i) && !IsCreation(g, s.log[i])
    requires Count(s.log, KindOf(s.log[i]), s.log[i].order) <= 1
    ensures !Seen(s, g, KindOf(s.log[i]), s.log[i].order)
  {
    var k, o := KindOf(s.log[i]), s.log[i].order;
    if Seen(s, g, k, o) {
      var j :| 0 <= j < |s.log| && Is(s.log[j], k, o) && Done(s, g, j);
      TwoOccurrences(s.log, k, o, i, j);
    }
  }

  lemma NotTakenYet(s: State, i: nat)
    requires i < |s.log| && s.log[i].OrderCreated? && (CatalogGroup, i) !in s.processed
    requires Count(s.log, KCreated, s.log[i].order) <= 1
    ensures !Taken(s, s.log[i].order)
  {
    var o := s.log[i].order;
    if Taken(s, o) {
      var j :| 0 <= j < |s.log| && Is(s.log[j], KCreated, o) && (CatalogGroup, j) in s.processed;
      TwoOccurrences(s.log, KCreated, o, i, j);
    }
  }

  lemma WrittenIsSent(s: State, i: nat)
    requires i < |s.log|
    ensures Sent(s, KindOf(s.log[i]), s.log[i].order)
  {
    OccursSo(s.log, i);
  }

  lemma CountGrows(log: seq<Event>, out: Option<Event>, k: Kind, o: nat)
    ensures Count(Append(log, out), k, o) == Count(log, k, o) + if out.Some? && Is(out.value, k, o) then 1 else 0
  {
    if out.Some? {
      FirstAppend(log, out.value, k, o);
    }
  }

  lemma OutcomesGrow(log: seq<Event>, out: Option<Event>, o: nat)
    ensures Outcomes(Append(log, out), o) == Outcomes(log, o) + if out.Some? && EndsCapture(out.value, o) then 1 else 0
  {
    if out.Some? {
      assert (log + [out.value])[..|log|] == log;
    }
  }

  /** The counts behind `Single`, after appending `out`. */
  lemma SinglesGrow(log: seq<Event>, out: Option<Event>, o: nat)
    ensures Single(Append(log, out), o) <==> OneEach(log, out, o)
  {
    CountGrows(log, out, KReserved, o);
    CountGrows(log, out, KAuthorized, o);
    CountGrows(log, out, KFailed, o);
    CountGrows(log, out, KCreated, o);
    CountGrows(log, out, KCancelled, o);
    CountGrows(log, out, KConfirmed, o);
  }

  predicate OneEach(log: seq<Event>, out: Option<Event>, o: nat) {
    && Count(log, KReserved, o) + Adds(out, KReserved, o) <= 1
    && Count(log, KAuthorized, o) + Adds(out, KAuthorized, o) <= 1
    && Count(log, KFailed, o) + Adds(out, KFailed, o) <= 1
    && Count(log, KCreated, o) + Adds(out, KCreated, o) <= 1
    && Count(log, KCancelled, o) + Adds(out, KCancelled, o) <= 1
    && Count(log, KConfirmed, o) + Adds(out, KConfirmed, o) <= 1
  }

  function Adds(out: Option<Event>, k: Kind, o: nat): nat {
    if out.Some? && Is(out.value, k, o) then 1 else 0
  }

  lemma CountsOfOthers(s: State, s': State, out: Option<Event>, p: nat, v: View)
    requires s'.log == Append(s.log, out) && (out.Some? ==> out.value.order != p) && CountsAs(s, p, v)
    ensures CountsAs(s', p, v)
  {
    SinglesGrow(s.log, out, p);
    OutcomesGrow(s.log, out, p);
  }

  /** Orders other than the delivered event's see no difference. */
  lemma OthersUnmoved(s: State, s': State, g: Group, i: nat, out: Option<Event>, p: nat)
    requires Attempted(s, s', g, i, out)
    requires s.log[i].order != p && (out.Some? ==> out.value.order != p)
    requires SameTables(ViewOf(s', p), ViewOf(s, p))
    ensures SameView(ViewOf(s', p), ViewOf(s, p))
  {
    var v := ViewOf(s, p);
    ViewFlags(s, p, v);
    SentUnmoved(s, s', out, p, v);
    SeenUnmoved(s, s', g, i, out, p, v);
    ViewFlags(s', p, v);
    ViewCounts(s, p, v);
    CountsOfOthers(s, s', out, p, v);
    ViewCounts(s', p, v);
  }

  lemma SentUnmoved(s: State, s': State, out: Option<Event>, p: nat, v: View)
    requires s'.log == Append(s.log, out) && (out.Some? ==> out.value.order != p) && SentAs(s, p, v)
    ensures SentAs(s', p, v)
  {
    SentGrows(s, s', out, KCreated, p);
    SentGrows(s, s', out, KReserved, p);
    SentGrows(s, s', out, KReservationFailed, p);
    SentGrows(s, s', out, KAuthorized, p);
    SentGrows(s, s', out, KFailed, p);
    SentGrows(s, s', out, KConfirmed, p);
    SentGrows(s, s', out, KCancelled, p);
    SentGrows(s, s', out, KCaptured, p);
  }

  lemma SeenUnmoved(s: State, s': State, g: Group, i: nat, out: Option<Event>, p: nat, v: View)
    requires Attempted(s, s', g, i, out) && s.log[i].order != p && SeenAs(s, p, v)
    ensures SeenAs(s', p, v)
  {
    TakenGrows(s, s', g, i, out, p);
    SeenGrows(s, s', g, i, out, CatalogGroup, KCancelled, p);
    SeenGrows(s, s', g, i, out, PaymentGroup, KReserved, p);
    SeenGrows(s, s', g, i, out, PaymentGroup, KCancelled, p);
    SeenGrows(s, s', g, i, out, OrderGroup, KReserved, p);
    SeenGrows(s, s', g, i, out, OrderGroup, KReservationFailed, p);
    SeenGrows(s, s', g, i, out, OrderGroup, KAuthorized, p);
    SeenGrows(s, s', g, i, out, OrderGroup, KFailed, p);
  }

  /** The log-only part of the delivered event's own order. */
  lemma OwnCounts(log: seq<Event>, out: Option<Event>, o: nat)
    requires Single(log, o) && (out.Some? ==> out.value.order == o && MayBeWritten(log, KindOf(out.value), o))
    ensures Single(Append(log, out), o)
  {
    SinglesGrow(log, out, o);
    if out.Some? {
      var k := KindOf(out.value);
      if k !in {KRetry, KCaptured, KVoided, KReservationFailed} {
        UnsentCount(log, k, o);
      }
      OneMoreIsSingle(log, out, k, o);
    }
  }

  lemma OneMoreIsSingle(log: seq<Event>, out: Option<Event>, k: Kind, o: nat)
    requires Single(log, o) && out.Some? && k == KindOf(out.value) && out.value.order == o
    requires k in {KRetry, KCaptured, KVoided, KReservationFailed} || Count(log, k, o) == 0
    ensures OneEach(log, out, o)
  {
  }

  lemma UnsentCount(log: seq<Event>, k: Kind, o: nat)
    requires First(log, k, o) < 0
    ensures Count(log, k, o) == 0
  {
    FirstIsFirst(log, k, o);
  }

  /** Kinds that may be written more than once, or were not written before. */
  predicate MayBeWritten(log: seq<Event>, k: Kind, o: nat) {
    k in {KRetry, KCaptured, KVoided, KReservationFailed} || First(log, k, o) < 0
  }

  /**
   * The view after an attempt on an event of kind `k` that wrote `out`: what was sent and who has seen
   * what. `done`: the event is now consumed; `committed`: it is now processed.
   */
  function Noted(v: View, g: Group, k: Kind, done: bool, committed: bool, out: Option<Event>, o: nat): View {
    var sent := if out.Some? then Some(KindOf(out.value)) else None;
    var who := if done then Some(g) else None;
    v.(created := v.created || sent == Some(KCreated), reserved := v.reserved || sent == Some(KReserved),
       unreserved := v.unreserved || sent == Some(KReservationFailed),
       authorized := v.authorized || sent == Some(KAuthorized),
       failed := v.failed || sent == Some(KFailed), confirmed := v.confirmed || sent == Some(KConfirmed),
       cancelled := v.cancelled || sent == Some(KCancelled), captured := v.captured || sent == Some(KCaptured),
       cTaken := v.cTaken || (committed && g == CatalogGroup && k == KCreated),
       cCancelled := v.cCancelled || (who == Some(CatalogGroup) && k == KCancelled),
       pReserved := v.pReserved || (who == Some(PaymentGroup) && k == KReserved),
       pCancelled := v.pCancelled || (who == Some(PaymentGroup) && k == KCancelled),
       oReserved := v.oReserved || (who == Some(OrderGroup) && k == KReserved),
       oUnreserved := v.oUnreserved || (who == Some(OrderGroup) && k == KReservationFailed),
       oAuthorized := v.oAuthorized || (who == Some(OrderGroup) && k == KAuthorized),
       oFailed := v.oFailed || (who == Some(OrderGroup) && k == KFailed),
       outcomes := v.outcomes + if out.Some? && EndsCapture(out.value, o) then 1 else 0)
  }

  predicate SameSent(v: View, w: View) {
    && v.created == w.created && v.reserved == w.reserved && v.unreserved == w.unreserved
    && v.authorized == w.authorized && v.failed == w.failed && v.confirmed == w.confirmed
    && v.cancelled == w.cancelled && v.captured == w.captured
  }

  predicate SameSeen(v: View, w: View) {
    && v.cTaken == w.cTaken && v.cCancelled == w.cCancelled && v.pReserved == w.pReserved
    && v.pCancelled == w.pCancelled && v.oReserved == w.oReserved && v.oUnreserved == w.oUnreserved
    && v.oAuthorized == w.oAuthorized && v.oFailed == w.oFailed
  }

  /** The views differ at most in the fields read from the services' tables. */
  predicate SameLog(v: View, w: View) {
    SameSent(v, w) && SameSeen(v, w) && SameCounts(v, w)
  }

  predicate SameCounts(v: View, w: View) {
    v.outcomes == w.outcomes && v.single == w.single
  }

  predicate SameTables(v: View, w: View) {
    && v.known == w.known && v.status == w.status && v.pay == w.pay
    && v.held == w.held && v.nothing == w.nothing
  }

  predicate SameView(v: View, w: View) {
    SameLog(v, w) && SameTables(v, w)
  }

  /** What is seen was sent. */
  predicate Coherent(v: View) {
    && (v.cCancelled || v.pCancelled ==> v.cancelled)
    && (v.pReserved || v.oReserved ==> v.reserved) && (v.oUnreserved ==> v.unreserved)
    && (v.oAuthorized ==> v.authorized) && (v.oFailed ==> v.failed)
  }

  predicate SentAs(s: State, o: nat, v: View) {
    && Sent(s, KCreated, o) == v.created && Sent(s, KReserved, o) == v.reserved
    && Sent(s, KReservationFailed, o) == v.unreserved && Sent(s, KAuthorized, o) == v.authorized
    && Sent(s, KFailed, o) == v.failed && Sent(s, KConfirmed, o) == v.confirmed
    && Sent(s, KCancelled, o) == v.cancelled && Sent(s, KCaptured, o) == v.captured
  }

  predicate SeenAs(s: State, o: nat, v: View) {
    && Taken(s, o) == v.cTaken
    && Seen(s, CatalogGroup, KCancelled, o) == v.cCancelled
    && Seen(s, PaymentGroup, KReserved, o) == v.pReserved && Seen(s, PaymentGroup, KCancelled, o) == v.pCancelled
    && Seen(s, OrderGroup, KReserved, o) == v.oReserved && Seen(s, OrderGroup, KReservationFailed, o) == v.oUnreserved
    && Seen(s, OrderGroup, KAuthorized, o) == v.oAuthorized && Seen(s, OrderGroup, KFailed, o) == v.oFailed
  }

  /** The view's flags are what was sent and seen. */
  lemma ViewFlags(s: State, o: nat, v: View)
    ensures SentAs(s, o, v) <==> SameSent(ViewOf(s, o), v)
    ensures SeenAs(s, o, v) <==> SameSeen(ViewOf(s, o), v)
  {
  }

  lemma SentView(s: State, s': State, g: Group, k: Kind, done: bool, committed: bool, out: Option<Event>, o: nat,
                 v: View)
    requires s'.log == Append(s.log, out) && (out.Some? ==> out.value.order == o) && SentAs(s, o, v)
    ensures SentAs(s', o, Noted(v, g, k, done, committed, out, o))
  {
    SentGrows(s, s', out, KCreated, o);
    SentGrows(s, s', out, KReserved, o);
    SentGrows(s, s', out, KReservationFailed, o);
    SentGrows(s, s', out, KAuthorized, o);
    SentGrows(s, s', out, KFailed, o);
    SentGrows(s, s', out, KConfirmed, o);
    SentGrows(s, s', out, KCancelled, o);
    SentGrows(s, s', out, KCaptured, o);
  }

  lemma SeenView(s: State, s': State, g: Group, i: nat, out: Option<Event>, o: nat, v: View)
    requires Attempted(s, s', g, i, out) && s.log[i].order == o && SeenAs(s, o, v)
    ensures SeenAs(s', o, Noted(v, g, KindOf(s.log[i]), Done(s', g, i), (g, i) in s'.processed, out, o))
  {
    TakenGrows(s, s', g, i, out, o);
    SeenGrows(s, s', g, i, out, CatalogGroup, KCancelled, o);
    SeenGrows(s, s', g, i, out, PaymentGroup, KReserved, o);
    SeenGrows(s, s', g, i, out, PaymentGroup, KCancelled, o);
    SeenGrows(s, s', g, i, out, OrderGroup, KReserved, o);
    SeenGrows(s, s', g, i, out, OrderGroup, KReservationFailed, o);
    SeenGrows(s, s', g, i, out, OrderGroup, KAuthorized, o);
    SeenGrows(s, s', g, i, out, OrderGroup, KFailed, o);
  }

  ghost predicate CountsAs(s: State, o: nat, v: View) {
    Outcomes(s.log, o) == v.outcomes && Single(s.log, o) == v.single
  }

  lemma ViewCounts(s: State, o: nat, v: View)
    ensures CountsAs(s, o, v) <==> SameCounts(ViewOf(s, o), v)
  {
  }

  ghost predicate LogAs(s: State, o: nat, v: View) {
    SentAs(s, o, v) && SeenAs(s, o, v) && CountsAs(s, o, v)
  }

  lemma LogAsIs(s: State, o: nat, v: View)
    ensures LogAs(s, o, v) <==> SameLog(ViewOf(s, o), v)
  {
    ViewFlags(s, o, v);
    ViewCounts(s, o, v);
  }

  lemma OwnLog(s: State, s': State, g: Group, i: nat, out: Option<Event>, o: nat, v: View)
    requires Attempted(s, s', g, i, out) && o == s.log[i].order && Single(s.log, o) && LogAs(s, o, v)
    requires out.Some? ==> out.value.order == o && MayBeWritten(s.log, KindOf(out.value), o)
    ensures LogAs(s', o, Noted(v, g, KindOf(s.log[i]), Done(s', g, i), (g, i) in s'.processed, out, o))
  {
    OwnCounts(s.log, out, o);
    OutcomesGrow(s.log, out, o);
    SentView(s, s', g, KindOf(s.log[i]), Done(s', g, i), (g, i) in s'.processed, out, o, v);
    SeenView(s, s', g, i, out, o, v);
  }

  /** What an attempt does to the view of its own order. */
  lemma OwnView(s: State, s': State, g: Group, i: nat, out: Option<Event>, o: nat)
    requires Attempted(s, s', g, i, out) && o == s.log[i].order && Single(s.log, o)
    requires out.Some? ==> out.value.order == o && MayBeWritten(s.log, KindOf(out.value), o)
    ensures SameLog(ViewOf(s', o), Noted(ViewOf(s, o), g, KindOf(s.log[i]),
                                         Done(s', g, i), (g, i) in s'.processed, out, o))
  {
    var v := ViewOf(s, o);
    LogAsIs(s, o, v);
    OwnLog(s, s', g, i, out, o, v);
    LogAsIs(s', o, Noted(v, g, KindOf(s.log[i]), Done(s', g, i), (g, i) in s'.processed, out, o));
  }

  lemma SeenWasSent(s: State, g: Group, k: Kind, o: nat)
    ensures Seen(s, g, k, o) ==> Sent(s, k, o)
  {
    if Seen(s, g, k, o) {
      var i :| 0 <= i < |s.log| && Is(s.log[i], k, o) && Done(s, g, i);
      OccursSo(s.log, i);
    }
  }

  lemma ViewIsCoherent(s: State, o: nat)
    ensures Coherent(ViewOf(s, o))
  {
    SeenWasSent(s, CatalogGroup, KCancelled, o);
    SeenWasSent(s, PaymentGroup, KReserved, o);
    SeenWasSent(s, PaymentGroup, KCancelled, o);
    SeenWasSent(s, OrderGroup, KReserved, o);
    SeenWasSent(s, OrderGroup, KReservationFailed, o);
    SeenWasSent(s, OrderGroup, KAuthorized, o);
    SeenWasSent(s, OrderGroup, KFailed, o);
  }

  ghost predicate TablesAs(s: State, o: nat, v: View) {
    && (o in s.orders) == v.known && (if o in s.orders then s.orders[o].status else Pending) == v.status
    && Ledger.StateOf(s.books, o) == v.pay && HoldsNothing(s.stock, o) == v.nothing
    && (o in s.orders && AllHeld(s.stock.rows, o, s.orders[o].items)) == v.held
  }

  lemma ViewTables(s: State, o: nat, v: View)
    ensures TablesAs(s, o, v) <==> SameTables(ViewOf(s, o), v)
  {
  }

  /** `v` is the view, said field by field of the state. */
  ghost predicate ViewAs(s: State, o: nat, v: View) {
    SentAs(s, o, v) && SeenAs(s, o, v) && CountsAs(s, o, v) && TablesAs(s, o, v)
  }

  lemma ViewAsIs(s: State, o: nat, v: View)
    ensures ViewAs(s, o, v) <==> SameView(ViewOf(s, o), v)
  {
    ViewFlags(s, o, v);
    ViewCounts(s, o, v);
    ViewTables(s, o, v);
  }

  /** An attempt that fails and is to be made again changes no view. */
  lemma FailedAttemptIsUnseen(s: State, s': State, g: Group, i: nat, o: nat, v: View)
    requires MarksAreOld(s) && i < |s.log| && (g, i) !in s.processed && !IsFinal(g, s.log[i])
    requires s' == s.(settled := s.settled + {(g, i)}) && ViewAs(s, o, v)
    ensures ViewAs(s', o, v)
  {
    FailedFlags(s, s', g, i, o, v);
    assert CountsAs(s', o, v);
    assert TablesAs(s', o, v);
  }

  lemma FailedFlags(s: State, s': State, g: Group, i: nat, o: nat, v: View)
    requires MarksAreOld(s) && i < |s.log| && (g, i) !in s.processed && !IsFinal(g, s.log[i])
    requires s' == s.(settled := s.settled + {(g, i)}) && SeenAs(s, o, v) && SentAs(s, o, v)
    ensures SeenAs(s', o, v) && SentAs(s', o, v)
  {
    SentUnmoved(s, s', None, o, v);
    if s.log[i].order == o {
      SeenView(s, s', g, i, None, o, v);
      NothingNoted(v, g, KindOf(s.log[i]), o);
    } else {
      SeenUnmoved(s, s', g, i, None, o, v);
    }
  }

  lemma NothingNoted(v: View, g: Group, k: Kind, o: nat)
    ensures Noted(v, g, k, false, false, None, o) == v
  {
  }

  // ── Catalog ─────────────────────────────────────────────────

  lemma ReserveHoldsForOthers(st: Stock, o: nat, items: seq<Item>, p: nat, wanted: seq<Item>)
    requires ReserveAll(st, o, CatalogService.Lines(items)).Ok? && p != o
    ensures var rows' := ReserveAll(st, o, CatalogService.Lines(items)).value.rows;
            && (HoldsNothing(ReserveAll(st, o, CatalogService.Lines(items)).value, p) <==> HoldsNothing(st, p))
            && (AllHeld(rows', p, wanted) <==> AllHeld(st.rows, p, wanted))
  {
    var lines := CatalogService.Lines(items);
    ReserveAllExactly(st, o, lines);
    var st' := ReserveAll(st, o, lines).value;
    if HoldsNothing(st', p) {
      forall k | 0 <= k < |st.rows| ensures !(st.rows[k].order == p && st.rows[k].status == Reserved) {
        assert st'.rows[k] == st.rows[k];
      }
    }
    forall r: Reservation | r.order == p ensures r in st'.rows <==> r in st.rows {
      if r in st'.rows {
        var k :| 0 <= k < |st'.rows| && st'.rows[k] == r;
        assert k < |st.rows|;
      }
      if r in st.rows {
        var k :| 0 <= k < |st.rows| && st.rows[k] == r;
        assert st'.rows[k] == r;
      }
    }
  }

  lemma ReserveHoldsAll(st: Stock, o: nat, items: seq<Item>)
    requires ReserveAll(st, o, CatalogService.Lines(items)).Ok?
    ensures AllHeld(ReserveAll(st, o, CatalogService.Lines(items)).value.rows, o, items)
  {
    var lines := CatalogService.Lines(items);
    ReserveAllExactly(st, o, lines);
    var rows := ReserveAll(st, o, lines).value.rows;
    forall i | 0 <= i < |items| ensures Reservation(o, items[i].sku, items[i].qty, Reserved) in rows {
      assert rows[|st.rows| + i] == Reservation(o, items[i].sku, items[i].qty, Reserved);
    }
  }

  lemma ReleaseHoldsForOthers(st: Stock, o: nat, p: nat, wanted: seq<Item>)
    requires p != o
    ensures HoldsNothing(ReleaseAll(st, o), p) <==> HoldsNothing(st, p)
    ensures AllHeld(ReleaseAll(st, o).rows, p, wanted) <==> AllHeld(st.rows, p, wanted)
  {
    var st' := ReleaseAll(st, o);
    forall k | 0 <= k < |st.rows| ensures st.rows[k].order == p ==> st'.rows[k] == st.rows[k] {}
    forall k | 0 <= k < |st'.rows| ensures st'.rows[k].order == p ==> st'.rows[k] == st.rows[k] {}
    if HoldsNothing(st', p) {
      forall k | 0 <= k < |st.rows| ensures !(st.rows[k].order == p && st.rows[k].status == Reserved) {
        assert !(st'.rows[k].order == p && st'.rows[k].status == Reserved);
      }
    }
    forall r: Reservation | r.order == p ensures r in st'.rows <==> r in st.rows {
      if r in st'.rows {
        var k :| 0 <= k < |st'.rows| && st'.rows[k] == r;
        assert st.rows[k] == r;
      }
      if r in st.rows {
        var k :| 0 <= k < |st.rows| && st.rows[k] == r;
        assert st'.rows[k] == r;
      }
    }
  }

  /** Catalog attempts OrderCreated: reserved and held, or refused and noted, or refused without a note. */
  lemma CatalogCreated(s: State, i: nat, a: Answer)
    requires MarksAreOld(s) && InPhase(s, i) && s.log[i].OrderCreated? && PayloadOk(s.orders, s.log[i])
    requires OrderlyDelivery(s, CatalogGroup, i, a) && (CatalogGroup, i) !in s.processed
    ensures FailsForNow(s, CatalogGroup, i, a) || Phase(ViewOf(DeliverTo(s, CatalogGroup, i, a), s.log[i].order))
  {
    var e := s.log[i];
    var w := CatalogService.Handle(s.stock, e, a.db);
    CatalogService.ReservesExactly(s.stock, e.order, e.items, e.total, e.currency, a.db);
    if w.event.Some? {
      CreatedTables(s, i, a);
      CreationMoves(s, DeliverTo(s, CatalogGroup, i, a), i, w.committed, w.event.value);
    }
  }

  lemma CreationMoves(s: State, s': State, i: nat, committed: bool, out: Event)
    requires MarksAreOld(s) && InPhase(s, i) && s.log[i].OrderCreated? && (CatalogGroup, i) !in s.processed
    requires Attempted(s, s', CatalogGroup, i, Some(out)) && ((CatalogGroup, i) in s'.processed <==> committed)
    requires out.order == s.log[i].order
    requires if committed then out.InventoryReservedEvent? else out.InventoryReservationFailed?
    requires committed ==> !Sent(s, KReservationFailed, s.log[i].order)
    requires var v, v' := ViewOf(s, s.log[i].order), ViewOf(s', s.log[i].order);
             && SameTables(v', v.(held := v'.held, nothing := v'.nothing))
             && if committed then v'.held else v'.nothing == v.nothing
    ensures Phase(ViewOf(s', s.log[i].order))
  {
    var o := s.log[i].order;
    WrittenIsSent(s, i);
    NotTakenYet(s, i);
    ViewIsCoherent(s, o);
    OwnView(s, s', CatalogGroup, i, Some(out), o);
    CreationIsNoted(ViewOf(s, o), Done(s', CatalogGroup, i), committed, out, o);
    CreatedPhase(ViewOf(s, o), ViewOf(s', o), committed, out, o);
  }

  /** Whether the creation counts as consumed shows in the view only through what was written. */
  lemma CreationIsNoted(v: View, done: bool, committed: bool, out: Event, o: nat)
    ensures Noted(v, CatalogGroup, KCreated, done, committed, Some(out), o)
         == Noted(v, CatalogGroup, KCreated, true, committed, Some(out), o)
  {
  }

  lemma CreatedTables(s: State, i: nat, a: Answer)
    requires i < |s.log| && s.log[i].OrderCreated? && PayloadOk(s.orders, s.log[i]) && (CatalogGroup, i) !in s.processed
    ensures var v, v' := ViewOf(s, s.log[i].order), ViewOf(DeliverTo(s, CatalogGroup, i, a), s.log[i].order);
            && SameTables(v', v.(held := v'.held, nothing := v'.nothing))
            && if CatalogService.Handle(s.stock, s.log[i], a.db).committed then v'.held else v'.nothing == v.nothing
  {
    var e := s.log[i];
    CatalogService.ReservesExactly(s.stock, e.order, e.items, e.total, e.currency, a.db);
    if CatalogService.Handle(s.stock, e, a.db).committed {
      ReserveHoldsAll(s.stock, e.order, e.items);
    }
  }

  lemma CreatedPhase(v: View, v': View, committed: bool, out: Event, o: nat)
    requires Phase(v) && Coherent(v) && v.created && !v.cTaken && (committed ==> !v.unreserved) && out.order == o
    requires if committed then out.InventoryReservedEvent? else out.InventoryReservationFailed?
    requires SameLog(v', Noted(v, CatalogGroup, KCreated, true, committed, Some(out), o))
    requires SameTables(v', v.(held := v'.held, nothing := v'.nothing))
    requires if committed then v'.held else v'.nothing == v.nothing
    ensures Phase(v')
  {
  }

  lemma CatalogCancelled(s: State, i: nat, a: Answer)
    requires MarksAreOld(s) && Conserved(s.stock) && InPhase(s, i) && s.log[i].OrderCancelled?
    requires (CatalogGroup, i) !in s.processed
    ensures Phase(ViewOf(DeliverTo(s, CatalogGroup, i, a), s.log[i].order))
  {
    var o := s.log[i].order;
    var s' := DeliverTo(s, CatalogGroup, i, a);
    OwnView(s, s', CatalogGroup, i, None, o);
    ReleaseAllConserves(s.stock, o);
    assert ViewOf(s', o).nothing;
  }

  // ── Payment ─────────────────────────────────────────────────

  /** A committed delivery to payment: new books, perhaps an event, and the marks. */
  predicate PaymentMoved(s: State, s': State, i: nat, w: Payments.Written) {
    && i < |s.log| && (PaymentGroup, i) !in s.processed
    && s' == s.(books := w.books, log := Append(s.log, w.event),
                processed := s.processed + {(PaymentGroup, i)}, settled := s.settled + {(PaymentGroup, i)})
  }

  lemma PaymentDelivered(s: State, i: nat, a: Answer)
    requires i < |s.log| && (PaymentGroup, i) !in s.processed && Payments.Handle(s.books, s.log[i], a.gateway).Ok?
    ensures PaymentMoved(s, DeliverTo(s, PaymentGroup, i, a), i, Payments.Handle(s.books, s.log[i], a.gateway).value)
  {
  }

  lemma PaymentTables(s: State, s': State, i: nat, w: Payments.Written, o: nat)
    requires PaymentMoved(s, s', i, w)
    ensures SameTables(ViewOf(s', o), ViewOf(s, o).(pay := Ledger.StateOf(w.books, o)))
  {
    var v := ViewOf(s, o);
    ViewTables(s, o, v);
    ViewTables(s', o, v.(pay := Ledger.StateOf(w.books, o)));
  }

  lemma PaymentReserved(s: State, s': State, i: nat, g: Payments.GatewayAnswer)
    requires MarksAreOld(s) && Ledger.Shaped(s.books) && InPhase(s, i) && s.log[i].InventoryReservedEvent?
    requires Payments.Handle(s.books, s.log[i], g).Ok?
    requires PaymentMoved(s, s', i, Payments.Handle(s.books, s.log[i], g).value)
    ensures Phase(ViewOf(s', s.log[i].order))
  {
    var e := s.log[i];
    var o := e.order;
    var v := ViewOf(s, o);
    WrittenIsSent(s, i);
    NotSeenYet(s, PaymentGroup, i);
    assert !v.pReserved && v.pay == Ledger.New;
    AuthorizeAnswers(s.books, e, g);
    var w := Payments.Handle(s.books, e, g).value;
    PaymentTables(s, s', i, w, o);
    ViewIsCoherent(s, o);
    OwnView(s, s', PaymentGroup, i, w.event, o);
    ReservedPhase(v, ViewOf(s', o), w.event.value, o);
  }

  lemma ReservedPhase(v: View, v': View, out: Event, o: nat)
    requires Phase(v) && Coherent(v) && v.reserved && !v.pReserved && out.order == o
    requires out.PaymentAuthorizedEvent? || out == PaymentFailed(o, AuthorizationDeclined)
    requires SameLog(v', Noted(v, PaymentGroup, KReserved, true, true, Some(out), o))
    requires SameTables(v', v.(pay := if out.PaymentAuthorizedEvent? then Ledger.Authorized else v.pay))
    ensures Phase(v')
  {
  }

  /** In state New an authorization that commits has been granted or declined. */
  lemma AuthorizeAnswers(b: Ledger.Books, e: Event, g: Payments.GatewayAnswer)
    requires Ledger.Shaped(b) && e.InventoryReservedEvent? && Ledger.StateOf(b, e.order) == Ledger.New
    requires Payments.Handle(b, e, g).Ok?
    ensures var w := Payments.Handle(b, e, g).value;
            if g.auth.Approved?
            then w.event == Some(PaymentAuthorizedEvent(e.order))
                 && Ledger.StateOf(w.books, e.order) == Ledger.Authorized
            else w.event == Some(PaymentFailed(e.order, AuthorizationDeclined)) && w.books == b
  {
    Payments.NewHasNoLiveAuthorization(b, e.order);
    if g.auth.Approved? {
      Ledger.AuthorizationAdvances(b, e.order, e.total, e.currency, g.auth.gatewayRef);
    }
  }

  /** An open capture request belongs to a confirmed order without a capture outcome. */
  lemma OpenMeansNoOutcome(s: State, i: nat)
    requires i < |s.log| && AsksCapture(s.log[i], s.log[i].order) && (PaymentGroup, i) !in s.processed
    requires ChainOf(s, s.log[i].order) && HistoryOf(s.orders, s.log, s.log[i].order) && OrderOk(s, s.log[i].order)
    ensures Outcomes(s.log, s.log[i].order) == 0 && Sent(s, KConfirmed, s.log[i].order)
  {
    var o := s.log[i].order;
    OpenCounts(s.log, s.processed, i, i, o);
    OccursSo(s.log, i);
    FirstIsFirst(s.log, KConfirmed, o);
  }

  lemma OpenPhase(v: View)
    requires Phase(v) && Coherent(v) && v.confirmed && v.outcomes == 0
    requires v.pay in {Ledger.New, Ledger.Authorized, Ledger.Captured, Ledger.Voided}
    ensures v.pay == Ledger.Authorized && !v.failed
  {
  }

  /** Captured, or left alone with a request to try again or a failure. */
  predicate CaptureAnswered(b: Ledger.Books, w: Payments.Written, o: nat) {
    && w.event.Some? && w.event.value.order == o
    && (|| (w.event.value.PaymentCaptured? && Ledger.StateOf(w.books, o) == Ledger.Captured)
        || (w.books == b && w.event.value.CaptureRetryRequested?)
        || (w.books == b && w.event.value.PaymentFailed? && w.event.value.cause != AuthorizationDeclined))
  }

  lemma CaptureAnswers(b: Ledger.Books, e: Event, g: Payments.GatewayAnswer)
    requires Ledger.Shaped(b) && AsksCapture(e, e.order) && Ledger.StateOf(b, e.order) == Ledger.Authorized
    ensures Payments.Handle(b, e, g).Ok? && CaptureAnswered(b, Payments.Handle(b, e, g).value, e.order)
  {
    Ledger.FindInShaped(b, e.order);
    Ledger.CaptureAdvances(b, e.order);
  }

  /** An open capture request finds the payment authorized. */
  lemma RequestFinds(s: State, i: nat)
    requires Sound(s) && InPhase(s, i) && AsksCapture(s.log[i], s.log[i].order) && (PaymentGroup, i) !in s.processed
    ensures var v := ViewOf(s, s.log[i].order);
            Coherent(v) && v.pay == Ledger.Authorized && v.outcomes == 0 && v.confirmed && !v.failed
  {
    var o := s.log[i].order;
    assert ChainOf(s, o) && HistoryOf(s.orders, s.log, o) && OrderOk(s, o);
    OpenMeansNoOutcome(s, i);
    StateIsOneOfFour(s.books, o);
    ViewIsCoherent(s, o);
    OpenPhase(ViewOf(s, o));
  }

  lemma PaymentRequest(s: State, s': State, i: nat, w: Payments.Written)
    requires MarksAreOld(s) && InPhase(s, i) && AsksCapture(s.log[i], s.log[i].order)
    requires var v := ViewOf(s, s.log[i].order);
             Coherent(v) && v.pay == Ledger.Authorized && v.outcomes == 0 && v.confirmed && !v.failed
    requires PaymentMoved(s, s', i, w) && CaptureAnswered(s.books, w, s.log[i].order)
    ensures Phase(ViewOf(s', s.log[i].order))
  {
    var o := s.log[i].order;
    PaymentTables(s, s', i, w, o);
    OwnView(s, s', PaymentGroup, i, w.event, o);
    RequestPhase(ViewOf(s, o), ViewOf(s', o), KindOf(s.log[i]), w.event.value, o);
  }

  lemma PaymentAnswers(s: State, i: nat, a: Answer)
    requires Sound(s) && InPhase(s, i) && AsksCapture(s.log[i], s.log[i].order) && (PaymentGroup, i) !in s.processed
    ensures Payments.Handle(s.books, s.log[i], a.gateway).Ok?
    ensures Phase(ViewOf(DeliverTo(s, PaymentGroup, i, a), s.log[i].order))
  {
    RequestFinds(s, i);
    CaptureAnswers(s.books, s.log[i], a.gateway);
    PaymentDelivered(s, i, a);
    PaymentRequest(s, DeliverTo(s, PaymentGroup, i, a), i, Payments.Handle(s.books, s.log[i], a.gateway).value);
  }

  lemma RequestPhase(v: View, v': View, k: Kind, out: Event, o: nat)
    requires Phase(v) && Coherent(v) && v.pay == Ledger.Authorized && v.outcomes == 0 && v.confirmed && !v.failed
    requires (k == KConfirmed || k == KRetry) && out.order == o
    requires || out.PaymentCaptured? || out.CaptureRetryRequested?
             || (out.PaymentFailed? && out.cause != AuthorizationDeclined)
    requires SameLog(v', Noted(v, PaymentGroup, k, true, true, Some(out), o))
    requires SameTables(v', v.(pay := if out.PaymentCaptured? then Ledger.Captured else v.pay))
    ensures Phase(v')
  {
  }

  /** A cancellation commits unless the gateway refuses the void. */
  lemma VoidAnswers(b: Ledger.Books, o: nat, g: Payments.GatewayAnswer)
    requires Ledger.Shaped(b)
    ensures Payments.Handle(b, OrderCancelled(o), g).Ok? <==> g.voidOk || Ledger.StateOf(b, o) != Ledger.Authorized
    ensures Payments.Handle(b, OrderCancelled(o), g).Ok? ==>
              var w := Payments.Handle(b, OrderCancelled(o), g).value;
              && w.event == (if Ledger.StateOf(b, o) == Ledger.Authorized then Some(PaymentVoided(o)) else None)
              && Ledger.StateOf(w.books, o)
                 == (if Ledger.StateOf(b, o) == Ledger.Authorized then Ledger.Voided else Ledger.StateOf(b, o))
  {
    if Ledger.StateOf(b, o) == Ledger.Authorized {
      Ledger.VoidAdvances(b, o);
    }
  }

  lemma PaymentCancelled(s: State, s': State, i: nat, g: Payments.GatewayAnswer)
    requires MarksAreOld(s) && Ledger.Shaped(s.books) && InPhase(s, i) && s.log[i].OrderCancelled?
    requires Payments.Handle(s.books, s.log[i], g).Ok?
    requires PaymentMoved(s, s', i, Payments.Handle(s.books, s.log[i], g).value)
    ensures Phase(ViewOf(s', s.log[i].order))
  {
    var o := s.log[i].order;
    var v := ViewOf(s, o);
    WrittenIsSent(s, i);
    NotSeenYet(s, PaymentGroup, i);
    VoidAnswers(s.books, o, g);
    var w := Payments.Handle(s.books, s.log[i], g).value;
    StateIsOneOfFour(s.books, o);
    ViewIsCoherent(s, o);
    PaymentTables(s, s', i, w, o);
    OwnView(s, s', PaymentGroup, i, w.event, o);
    CancelledMeansVoidable(v, ViewOf(s', o), w.event, o);
  }

  lemma StateIsOneOfFour(b: Ledger.Books, o: nat)
    requires Ledger.Shaped(b)
    ensures Ledger.StateOf(b, o) in {Ledger.New, Ledger.Authorized, Ledger.Captured, Ledger.Voided}
  {
    Ledger.StateTellsShape(b, o);
  }

  lemma CancelledMeansVoidable(v: View, v': View, out: Option<Event>, o: nat)
    requires Phase(v) && Coherent(v) && v.cancelled && !v.pCancelled
    requires v.pay in {Ledger.New, Ledger.Authorized, Ledger.Captured, Ledger.Voided}
    requires out.Some? ==> out.value == PaymentVoided(o)
    requires SameLog(v', Noted(v, PaymentGroup, KCancelled, true, true, out, o))
    requires SameTables(v', v.(pay := if v.pay == Ledger.Authorized then Ledger.Voided else v.pay))
    ensures Phase(v')
  {
  }

  // ── Order ───────────────────────────────────────────────────

  ghost predicate InPhase(s: State, i: nat) {
    i < |s.log| && Phase(ViewOf(s, s.log[i].order))
  }

  /** A delivery to the order service moves the one row at most. */
  lemma OrderTablesMove(s: State, i: nat, a: Answer)
    requires MarksAreOld(s) && i < |s.log| && (OrderGroup, i) !in s.processed
    requires Subscribes(OrderGroup, TopicOf(s.log[i]))
    requires s.log[i].order in s.orders
    ensures var s' := DeliverTo(s, OrderGroup, i, a);
            var r := OrderService.Handle(s.orders, s.log[i]);
            var o := s.log[i].order;
            var v := ViewOf(s, o);
            && Attempted(s, s', OrderGroup, i, if r.Ok? then r.value.event else None)
            && ((OrderGroup, i) in s'.processed <==> r.Ok?)
            && o in s'.orders
            && SameTables(ViewOf(s', o), v.(status := s'.orders[o].status))
            && s'.orders[o].status == (if r.Ok? then r.value.orders[o].status else s.orders[o].status)
  {
    if OrderService.Handle(s.orders, s.log[i]).Ok? {
      MoveKeepsItems(s.orders, s.log[i]);
    }
  }

  lemma MoveKeepsItems(orders: map<nat, OrderService.Order>, e: Event)
    requires OrderService.Handle(orders, e).Ok? && e.order in orders
    ensures var w := OrderService.Handle(orders, e).value;
            e.order in w.orders && w.orders[e.order].items == orders[e.order].items
  {
  }

  lemma OrderReserved(s: State, i: nat, a: Answer)
    requires MarksAreOld(s) && InPhase(s, i) && s.log[i].InventoryReservedEvent? && (OrderGroup, i) !in s.processed
    ensures Phase(ViewOf(DeliverTo(s, OrderGroup, i, a), s.log[i].order))
  {
    var o := s.log[i].order;
    WrittenIsSent(s, i);
    ViewIsCoherent(s, o);
    ReservedTables(s, i, a);
    var s' := DeliverTo(s, OrderGroup, i, a);
    OwnView(s, s', OrderGroup, i, None, o);
    ReservedMoves(ViewOf(s, o), ViewOf(s', o), o);
  }

  lemma ReservedTables(s: State, i: nat, a: Answer)
    requires MarksAreOld(s) && i < |s.log| && s.log[i].InventoryReservedEvent? && (OrderGroup, i) !in s.processed
    requires s.log[i].order in s.orders
    ensures var s' := DeliverTo(s, OrderGroup, i, a);
            var v := ViewOf(s, s.log[i].order);
            && Attempted(s, s', OrderGroup, i, None)
            && ((OrderGroup, i) in s'.processed <==> v.status == Pending) && (OrderGroup, i) in s'.settled
            && SameTables(ViewOf(s', s.log[i].order),
                          v.(status := if v.status == Pending then InventoryReserved else v.status))
  {
    OrderTablesMove(s, i, a);
    MoveToReserved(s.orders, s.log[i].order);
  }

  lemma MoveToReserved(orders: map<nat, OrderService.Order>, o: nat)
    requires o in orders
    ensures var r := OrderService.Move(orders, o, InventoryReserved, None);
            && (r.Ok? <==> orders[o].status == Pending)
            && (r.Ok? ==> r.value.event == None && r.value.orders[o].status == InventoryReserved)
  {
  }

  lemma ReservedMoves(v: View, v': View, o: nat)
    requires Phase(v) && Coherent(v) && v.known && v.reserved
    requires SameLog(v', Noted(v, OrderGroup, KReserved, true, v.status == Pending, None, o))
    requires SameTables(v', v.(status := if v.status == Pending then InventoryReserved else v.status))
    ensures Phase(v')
  {
  }

  lemma OrderUnreserved(s: State, i: nat, a: Answer)
    requires MarksAreOld(s) && InPhase(s, i) && s.log[i].InventoryReservationFailed? && (OrderGroup, i) !in s.processed
    ensures Phase(ViewOf(DeliverTo(s, OrderGroup, i, a), s.log[i].order))
  {
    var o := s.log[i].order;
    WrittenIsSent(s, i);
    ViewIsCoherent(s, o);
    UnreservedStatus(ViewOf(s, o));
    UnreservedTables(s, i, a);
    var s' := DeliverTo(s, OrderGroup, i, a);
    OwnView(s, s', OrderGroup, i, None, o);
    UnreservedMoves(ViewOf(s, o), ViewOf(s', o), (OrderGroup, i) in s'.processed, o);
  }

  lemma UnreservedStatus(v: View)
    requires Phase(v) && Coherent(v) && v.unreserved
    ensures v.known && v.status in {Pending, Cancelled}
  {
  }

  lemma UnreservedTables(s: State, i: nat, a: Answer)
    requires MarksAreOld(s) && i < |s.log| && s.log[i].InventoryReservationFailed? && (OrderGroup, i) !in s.processed
    requires s.log[i].order in s.orders && s.orders[s.log[i].order].status in {Pending, Cancelled}
    ensures var s' := DeliverTo(s, OrderGroup, i, a);
            && Attempted(s, s', OrderGroup, i, None) && (OrderGroup, i) in s'.settled
            && SameTables(ViewOf(s', s.log[i].order), ViewOf(s, s.log[i].order).(status := Cancelled))
  {
    OrderTablesMove(s, i, a);
    MoveToCancelled(s.orders, s.log[i].order, None);
  }

  lemma UnreservedMoves(v: View, v': View, committed: bool, o: nat)
    requires Phase(v) && Coherent(v) && v.unreserved
    requires SameLog(v', Noted(v, OrderGroup, KReservationFailed, true, committed, None, o))
    requires SameTables(v', v.(status := Cancelled))
    ensures Phase(v')
  {
  }

  /** PaymentAuthorized commits exactly after InventoryReserved. */
  lemma OrderAuthorized(s: State, i: nat, a: Answer)
    requires MarksAreOld(s) && InPhase(s, i) && s.log[i].PaymentAuthorizedEvent? && (OrderGroup, i) !in s.processed
    ensures OrderService.Handle(s.orders, s.log[i]).Ok? <==> Seen(s, OrderGroup, KReserved, s.log[i].order)
    ensures OrderService.Handle(s.orders, s.log[i]).Ok? ==>
              Phase(ViewOf(DeliverTo(s, OrderGroup, i, a), s.log[i].order))
  {
    var o := s.log[i].order;
    var v := ViewOf(s, o);
    WrittenIsSent(s, i);
    NotSeenYet(s, OrderGroup, i);
    ViewIsCoherent(s, o);
    BeforeAuthorized(v);
    MoveToConfirmed(s.orders, o);
    if v.oReserved {
      OrderTablesMove(s, i, a);
      var s' := DeliverTo(s, OrderGroup, i, a);
      var out := Some(OrderConfirmed(o));
      OwnView(s, s', OrderGroup, i, out, o);
      StatusMoves(v, ViewOf(s', o), KAuthorized, out, o);
    }
  }

  lemma OrderFailed(s: State, i: nat, a: Answer)
    requires MarksAreOld(s) && InPhase(s, i) && s.log[i].PaymentFailed? && (OrderGroup, i) !in s.processed
    ensures OrderService.Handle(s.orders, s.log[i]).Ok?
    ensures Phase(ViewOf(DeliverTo(s, OrderGroup, i, a), s.log[i].order))
  {
    var o := s.log[i].order;
    WrittenIsSent(s, i);
    NotSeenYet(s, OrderGroup, i);
    ViewIsCoherent(s, o);
    NoneCancelledYet(ViewOf(s, o));
    MoveToCancelled(s.orders, o, Some(OrderCancelled(o)));
    OrderTablesMove(s, i, a);
    var s' := DeliverTo(s, OrderGroup, i, a);
    var out := Some(OrderCancelled(o));
    OwnView(s, s', OrderGroup, i, out, o);
    StatusMoves(ViewOf(s, o), ViewOf(s', o), KFailed, out, o);
  }

  lemma BeforeAuthorized(v: View)
    requires Phase(v) && Coherent(v) && v.authorized && !v.oAuthorized
    ensures v.known && !v.confirmed && v.status == if v.oReserved then InventoryReserved else Pending
  {
  }

  lemma MoveToConfirmed(orders: map<nat, OrderService.Order>, o: nat)
    requires o in orders && orders[o].status in {Pending, InventoryReserved}
    ensures var r := OrderService.AuthorizeAndConfirm(orders, o);
            && (r.Ok? <==> orders[o].status == InventoryReserved)
            && (r.Ok? ==> r.value.event == Some(OrderConfirmed(o)) && r.value.orders[o].status == OrderStatus.Confirmed)
  {
  }

  lemma MoveToCancelled(orders: map<nat, OrderService.Order>, o: nat, out: Option<Event>)
    requires o in orders && orders[o].status in {Pending, InventoryReserved, OrderStatus.Confirmed, Cancelled}
    ensures var r := OrderService.Move(orders, o, Cancelled, out);
            && (r.Ok? <==> orders[o].status != Cancelled)
            && (r.Ok? ==> r.value.event == out && r.value.orders[o].status == Cancelled)
  {
  }

  lemma NoneCancelledYet(v: View)
    requires Phase(v) && Coherent(v) && v.failed && !v.oFailed
    ensures v.known && v.status in {Pending, InventoryReserved, OrderStatus.Confirmed} && !v.cancelled
  {
  }

  predicate CanMove(v: View, k: Kind) {
    && (k == KReserved ==> v.reserved)
    && (k == KReservationFailed ==> v.unreserved)
    && (k == KAuthorized ==> v.authorized && !v.oAuthorized && v.oReserved)
    && (k == KFailed ==> v.failed && !v.oFailed)
  }

  /** The four moves of the order service keep the phase. */
  lemma StatusMoves(v: View, v': View, k: Kind, out: Option<Event>, o: nat)
    requires Phase(v) && Coherent(v) && v.known && CanMove(v, k)
    requires k in {KReserved, KReservationFailed, KAuthorized, KFailed}
    requires out == (if k == KAuthorized then Some(OrderConfirmed(o))
                     else if k == KFailed then Some(OrderCancelled(o)) else None)
    requires SameLog(v', Noted(v, OrderGroup, k, true, true, out, o)) && SameTables(v', v.(status := v'.status))
    requires v'.status == StatusFrom(v')
    ensures Phase(v')
  {
  }

  // ── Every delivery ──────────────────────────────────────────

  /** Events a group ignores only get marked. */
  lemma Ignored(s: State, g: Group, i: nat, a: Answer)
    requires MarksAreOld(s) && InPhase(s, i)
    requires (g, i) !in s.processed && Subscribes(g, TopicOf(s.log[i]))
    requires Attempt(s, g, s.log[i], a) == (s, true)
    requires IgnoresKind(g, KindOf(s.log[i]))
    ensures Phase(ViewOf(DeliverTo(s, g, i, a), s.log[i].order))
  {
    var o := s.log[i].order;
    var s' := DeliverTo(s, g, i, a);
    OwnView(s, s', g, i, None, o);
    IgnoredPhase(ViewOf(s, o), ViewOf(s', o), g, KindOf(s.log[i]), o);
  }

  predicate IgnoresKind(g: Group, k: Kind) {
    match g
    case OrderGroup => k in {KCaptured, KVoided, KRetry}
    case CatalogGroup => k == KConfirmed
    case PaymentGroup => k in {KCreated, KReservationFailed, KAuthorized, KFailed, KCaptured, KVoided, KTimedOut}
  }

  lemma IgnoredPhase(v: View, v': View, g: Group, k: Kind, o: nat)
    requires Phase(v) && IgnoresKind(g, k)
    requires SameLog(v', Noted(v, g, k, true, true, None, o)) && SameTables(v', v)
    ensures Phase(v')
  {
  }

  lemma SameViewKeepsPhase(v: View, v': View)
    requires Phase(v) && SameView(v', v)
    ensures Phase(v')
  {
  }

  /** No timeouts occur in an orderly run. */
  ghost predicate NoTimeouts(s: State) {
    forall i :: 0 <= i < |s.log| ==> !s.log[i].PaymentTimedOut?
  }

  /** A failed attempt that is to be repeated. */
  ghost predicate FailsForNow(s: State, g: Group, i: nat, a: Answer)
    requires i < |s.log|
  {
    !IsFinal(g, s.log[i]) && DeliverTo(s, g, i, a) == s.(settled := s.settled + {(g, i)})
  }

  lemma OwnOrderByOrder(s: State, i: nat, a: Answer)
    requires MarksAreOld(s) && NoTimeouts(s) && InPhase(s, i)
    requires (OrderGroup, i) !in s.processed && Subscribes(OrderGroup, TopicOf(s.log[i]))
    ensures FailsForNow(s, OrderGroup, i, a) || Phase(ViewOf(DeliverTo(s, OrderGroup, i, a), s.log[i].order))
  {
    match s.log[i] {
      case InventoryReservedEvent(_, _, _, _) => OrderReserved(s, i, a);
      case InventoryReservationFailed(_) => OrderUnreserved(s, i, a);
      case PaymentAuthorizedEvent(_) => OrderAuthorized(s, i, a);
      case PaymentFailed(_, _) => OrderFailed(s, i, a);
      case _ => Ignored(s, OrderGroup, i, a);
    }
  }

  lemma OwnOrderByCatalog(s: State, i: nat, a: Answer)
    requires MarksAreOld(s) && Conserved(s.stock) && InPhase(s, i) && OrderlyDelivery(s, CatalogGroup, i, a)
    requires PayloadOk(s.orders, s.log[i])
    requires (CatalogGroup, i) !in s.processed && Subscribes(CatalogGroup, TopicOf(s.log[i]))
    ensures FailsForNow(s, CatalogGroup, i, a) || Phase(ViewOf(DeliverTo(s, CatalogGroup, i, a), s.log[i].order))
  {
    match s.log[i] {
      case OrderCreated(_, _, _, _) => CatalogCreated(s, i, a);
      case OrderCancelled(_) => CatalogCancelled(s, i, a);
      case _ => Ignored(s, CatalogGroup, i, a);
    }
  }

  lemma OwnOrderByPayment(s: State, i: nat, a: Answer)
    requires Sound(s) && InPhase(s, i) && (PaymentGroup, i) !in s.processed
    ensures FailsForNow(s, PaymentGroup, i, a) || Phase(ViewOf(DeliverTo(s, PaymentGroup, i, a), s.log[i].order))
  {
    if Payments.Handle(s.books, s.log[i], a.gateway).Ok? {
      PaymentCommitted(s, i, a);
    } else {
      PaymentFails(s, i, a);
    }
  }

  lemma PaymentFails(s: State, i: nat, a: Answer)
    requires i < |s.log| && (PaymentGroup, i) !in s.processed && Payments.Handle(s.books, s.log[i], a.gateway).Err?
    ensures FailsForNow(s, PaymentGroup, i, a)
  {
  }

  lemma PaymentCommitted(s: State, i: nat, a: Answer)
    requires Sound(s) && InPhase(s, i) && (PaymentGroup, i) !in s.processed
    requires Payments.Handle(s.books, s.log[i], a.gateway).Ok?
    ensures Phase(ViewOf(DeliverTo(s, PaymentGroup, i, a), s.log[i].order))
  {
    PaymentDelivered(s, i, a);
    match s.log[i] {
      case InventoryReservedEvent(_, _, _, _) => PaymentReserved(s, DeliverTo(s, PaymentGroup, i, a), i, a.gateway);
      case OrderConfirmed(_) => PaymentAnswers(s, i, a);
      case CaptureRetryRequested(_, _) => PaymentAnswers(s, i, a);
      case OrderCancelled(_) => PaymentCancelled(s, DeliverTo(s, PaymentGroup, i, a), i, a.gateway);
      case _ => Ignored(s, PaymentGroup, i, a);
    }
  }

  lemma OwnOrder(s: State, g: Group, i: nat, a: Answer)
    requires Sound(s) && NoTimeouts(s) && InPhase(s, i) && OrderlyDelivery(s, g, i, a)
    requires (g, i) !in s.processed && Subscribes(g, TopicOf(s.log[i]))
    ensures FailsForNow(s, g, i, a) || Phase(ViewOf(DeliverTo(s, g, i, a), s.log[i].order))
  {
    match g {
      case OrderGroup => OwnOrderByOrder(s, i, a);
      case CatalogGroup => OwnOrderByCatalog(s, i, a);
      case PaymentGroup => OwnOrderByPayment(s, i, a);
    }
  }

  /** What a delivery writes belongs to the delivered event's order. */
  lemma CatalogOthers(s: State, i: nat, a: Answer, p: nat)
    requires MarksAreOld(s) && i < |s.log|
    requires (CatalogGroup, i) !in s.processed && Subscribes(CatalogGroup, TopicOf(s.log[i])) && s.log[i].order != p
    ensures SameView(ViewOf(DeliverTo(s, CatalogGroup, i, a), p), ViewOf(s, p))
  {
    var w := CatalogService.Handle(s.stock, s.log[i], a.db);
    var items := if p in s.orders then s.orders[p].items else [];
    match s.log[i] {
      case OrderCreated(o, lines, _, _) =>
        if w.committed {
          ReserveHoldsForOthers(s.stock, o, lines, p, items);
        }
      case OrderCancelled(o) => ReleaseHoldsForOthers(s.stock, o, p, items);
      case _ =>
    }
    OthersUnmoved(s, DeliverTo(s, CatalogGroup, i, a), CatalogGroup, i, w.event, p);
  }

  lemma PaymentOthers(s: State, i: nat, a: Answer, p: nat)
    requires MarksAreOld(s) && Ledger.Shaped(s.books) && i < |s.log|
    requires (PaymentGroup, i) !in s.processed && s.log[i].order != p
    ensures SameView(ViewOf(DeliverTo(s, PaymentGroup, i, a), p), ViewOf(s, p))
  {
    var r := Payments.Handle(s.books, s.log[i], a.gateway);
    var s' := DeliverTo(s, PaymentGroup, i, a);
    if r.Ok? {
      Payments.HandleAdvances(s.books, s.log[i], a.gateway);
      OthersUnmoved(s, s', PaymentGroup, i, r.value.event, p);
    } else {
      OthersUnmoved(s, s', PaymentGroup, i, None, p);
    }
  }

  lemma OrderOthers(s: State, i: nat, a: Answer, p: nat)
    requires MarksAreOld(s) && i < |s.log|
    requires (OrderGroup, i) !in s.processed && Subscribes(OrderGroup, TopicOf(s.log[i])) && s.log[i].order != p
    ensures SameView(ViewOf(DeliverTo(s, OrderGroup, i, a), p), ViewOf(s, p))
  {
    var r := OrderService.Handle(s.orders, s.log[i]);
    OthersUnmoved(s, DeliverTo(s, OrderGroup, i, a), OrderGroup, i, if r.Ok? then r.value.event else None, p);
  }

  lemma OtherOrder(s: State, g: Group, i: nat, a: Answer, p: nat)
    requires MarksAreOld(s) && Ledger.Shaped(s.books) && i < |s.log|
    requires (g, i) !in s.processed && Subscribes(g, TopicOf(s.log[i])) && s.log[i].order != p
    ensures SameView(ViewOf(DeliverTo(s, g, i, a), p), ViewOf(s, p))
  {
    match g {
      case OrderGroup => OrderOthers(s, i, a, p);
      case CatalogGroup => CatalogOthers(s, i, a, p);
      case PaymentGroup => PaymentOthers(s, i, a, p);
    }
  }

  lemma FailureKeepsPhase(s: State, s': State, g: Group, i: nat, o: nat)
    requires MarksAreOld(s) && i < |s.log| && (g, i) !in s.processed && !IsFinal(g, s.log[i])
    requires s' == s.(settled := s.settled + {(g, i)}) && Phase(ViewOf(s, o))
    ensures Phase(ViewOf(s', o))
  {
    var v := ViewOf(s, o);
    ViewAsIs(s, o, v);
    FailedAttemptIsUnseen(s, s', g, i, o, v);
    ViewAsIs(s', o, v);
    SameViewKeepsPhase(v, ViewOf(s', o));
  }

  lemma OwnKeepsPhase(s: State, g: Group, i: nat, a: Answer)
    requires Sound(s) && NoTimeouts(s) && InPhase(s, i) && OrderlyDelivery(s, g, i, a)
    requires (g, i) !in s.processed && Subscribes(g, TopicOf(s.log[i]))
    ensures Phase(ViewOf(DeliverTo(s, g, i, a), s.log[i].order))
  {
    OwnOrder(s, g, i, a);
    if FailsForNow(s, g, i, a) {
      FailureKeepsPhase(s, DeliverTo(s, g, i, a), g, i, s.log[i].order);
    }
  }

  lemma OthersKeepPhase(s: State, g: Group, i: nat, a: Answer, o: nat)
    requires MarksAreOld(s) && Ledger.Shaped(s.books) && i < |s.log| && Phase(ViewOf(s, o))
    requires (g, i) !in s.processed && Subscribes(g, TopicOf(s.log[i])) && s.log[i].order != o
    ensures Phase(ViewOf(DeliverTo(s, g, i, a), o))
  {
    OtherOrder(s, g, i, a, o);
    SameViewKeepsPhase(ViewOf(s, o), ViewOf(DeliverTo(s, g, i, a), o));
  }

  lemma DeliveryKeepsPhase(s: State, g: Group, i: nat, a: Answer, o: nat)
    requires PhaseInv(s) && NoTimeouts(s) && OrderlyDelivery(s, g, i, a)
    ensures Phase(ViewOf(DeliverTo(s, g, i, a), o))
  {
    assert Phase(ViewOf(s, o));
    if i < |s.log| && Subscribes(g, TopicOf(s.log[i])) && (g, i) !in s.processed {
      if o != s.log[i].order {
        OthersKeepPhase(s, g, i, a, o);
      } else {
        assert InPhase(s, i);
        OwnKeepsPhase(s, g, i, a);
      }
    }
  }

  lemma CreationKeepsPhase(s: State, id: nat, items: seq<Item>, currency: string, o: nat)
    requires PhaseInv(s) && OrderService.Create(s.orders, id, items, currency).Ok?
    ensures Phase(ViewOf(Apply(s, CreateOrder(id, items, currency)), o))
  {
    var s' := Apply(s, CreateOrder(id, items, currency));
    var e := OrderCreated(id, items, OrderValue(items), currency);
    var v, v' := ViewOf(s, o), ViewOf(s', o);
    assert Phase(v) && HistoryOf(s.orders, s.log, o);
    CreationLog(s, s', e, o);
    ViewIsCoherent(s, o);
    if o == id {
      CreationPhase(v, v');
    } else {
      SameViewKeepsPhase(v, v');
    }
  }

  lemma CreationLog(s: State, s': State, e: Event, o: nat)
    requires s'.log == s.log + [e] && s'.settled == s.settled && s'.processed == s.processed && e.OrderCreated?
    requires MarksAreOld(s) && Single(s.log, o) && (e.order == o ==> Count(s.log, KCreated, o) == 0)
    ensures SameLog(ViewOf(s', o), ViewOf(s, o).(created := ViewOf(s, o).created || e.order == o))
  {
    var v := ViewOf(s, o);
    var v' := v.(created := v.created || e.order == o);
    CreationCounts(s.log, e, o);
    ViewCounts(s, o, v);
    ViewCounts(s', o, v');
    ViewFlags(s, o, v);
    CreationSent(s, s', e, o, v);
    CreationSeen(s, s', e, o, v);
    ViewFlags(s', o, v');
  }

  lemma CreationCounts(log: seq<Event>, e: Event, o: nat)
    requires e.OrderCreated? && Single(log, o) && (e.order == o ==> Count(log, KCreated, o) == 0)
    ensures Single(log + [e], o) && Outcomes(log + [e], o) == Outcomes(log, o)
  {
    SinglesGrow(log, Some(e), o);
    OutcomesGrow(log, Some(e), o);
  }

  lemma CreationSent(s: State, s': State, e: Event, o: nat, v: View)
    requires s'.log == s.log + [e] && e.OrderCreated? && SentAs(s, o, v)
    ensures SentAs(s', o, v.(created := v.created || e.order == o))
  {
    SentGrows(s, s', Some(e), KCreated, o);
    SentGrows(s, s', Some(e), KReserved, o);
    SentGrows(s, s', Some(e), KReservationFailed, o);
    SentGrows(s, s', Some(e), KAuthorized, o);
    SentGrows(s, s', Some(e), KFailed, o);
    SentGrows(s, s', Some(e), KConfirmed, o);
    SentGrows(s, s', Some(e), KCancelled, o);
    SentGrows(s, s', Some(e), KCaptured, o);
  }

  /** A new event has been seen by nobody. */
  lemma NewIsUnseen(s: State, s': State, e: Event, h: Group, k: Kind, o: nat)
    requires s'.log == s.log + [e] && s'.settled == s.settled && s'.processed == s.processed && MarksAreOld(s)
    requires !(h == CatalogGroup && k == KCreated)
    ensures Seen(s', h, k, o) <==> Seen(s, h, k, o)
    ensures Taken(s', o) <==> Taken(s, o)
  {
    if Seen(s, h, k, o) {
      var j :| 0 <= j < |s.log| && Is(s.log[j], k, o) && Done(s, h, j);
      assert s'.log[j] == s.log[j] && Done(s', h, j);
    }
    if Seen(s', h, k, o) {
      var j :| 0 <= j < |s'.log| && Is(s'.log[j], k, o) && Done(s', h, j);
      assert j < |s.log| && Done(s, h, j);
    }
    if Taken(s, o) {
      var j :| 0 <= j < |s.log| && Is(s.log[j], KCreated, o) && (CatalogGroup, j) in s.processed;
      assert s'.log[j] == s.log[j];
    }
  }

  lemma CreationSeen(s: State, s': State, e: Event, o: nat, v: View)
    requires s'.log == s.log + [e] && s'.settled == s.settled && s'.processed == s.processed && MarksAreOld(s)
    requires SeenAs(s, o, v)
    ensures SeenAs(s', o, v.(created := v.created || e.order == o))
  {
    NewIsUnseen(s, s', e, CatalogGroup, KCancelled, o);
    NewIsUnseen(s, s', e, PaymentGroup, KReserved, o);
    NewIsUnseen(s, s', e, PaymentGroup, KCancelled, o);
    NewIsUnseen(s, s', e, OrderGroup, KReserved, o);
    NewIsUnseen(s, s', e, OrderGroup, KReservationFailed, o);
    NewIsUnseen(s, s', e, OrderGroup, KAuthorized, o);
    NewIsUnseen(s, s', e, OrderGroup, KFailed, o);
  }

  lemma CreationPhase(v: View, v': View)
    requires Phase(v) && !v.known && v'.known && v'.status == Pending && v'.nothing == v.nothing
    requires Coherent(v) && v'.pay == v.pay
    requires SameLog(v', v.(created := true))
    ensures Phase(v')
  {
  }

  lemma EditKeepsPhase(s: State, edit: AdminEdit, o: nat)
    requires Phase(ViewOf(s, o))
    ensures Phase(ViewOf(Apply(s, Admin(edit)), o))
  {
    var s' := Apply(s, Admin(edit));
    assert s' == s.(stock := s'.stock) && s'.stock.rows == s.stock.rows;
    SameRowsKeepPhase(s, s', o);
  }

  lemma SameRowsKeepPhase(s: State, s': State, o: nat)
    requires s' == s.(stock := s'.stock) && s'.stock.rows == s.stock.rows && Phase(ViewOf(s, o))
    ensures Phase(ViewOf(s', o))
  {
    var v := ViewOf(s, o);
    ViewAsIs(s, o, v);
    SameRowsSameView(s, s', o, v);
    ViewAsIs(s', o, v);
    SameViewKeepsPhase(v, ViewOf(s', o));
  }

  lemma SameRowsSameView(s: State, s': State, o: nat, v: View)
    requires s' == s.(stock := s'.stock) && s'.stock.rows == s.stock.rows && ViewAs(s, o, v)
    ensures ViewAs(s', o, v)
  {
    SameMarksSameFlags(s, s', o, v);
  }

  lemma SameMarksSameFlags(s: State, s': State, o: nat, v: View)
    requires s'.log == s.log && s'.settled == s.settled && s'.processed == s.processed && SeenAs(s, o, v)
    requires SentAs(s, o, v)
    ensures SeenAs(s', o, v) && SentAs(s', o, v)
  {
    assert forall g: Group, i: nat :: i < |s.log| ==> Done(s', g, i) == Done(s, g, i);
    assert forall g: Group, k: Kind :: Seen(s', g, k, o) == Seen(s, g, k, o);
  }

  lemma StepKeepsSound(s: State, step: Step)
    requires Sound(s) && UniqueRows(s.stock.rows) && Orderly(s, step) && NoTimeouts(s)
    ensures Sound(Apply(s, step)) && NoTimeouts(Apply(s, step))
  {
    StepKeepsHistory(s, step);
    StepKeepsCausal(s, step);
    StepKeepsChain(s, step);
    StepConserves(s, step);
    StepGrows(s, step);
    MarksStayOld(s, step);
    NothingTimesOut(s, step);
  }

  lemma MarksStayOld(s: State, step: Step)
    requires MarksAreOld(s) && LogGrows(s, Apply(s, step))
    ensures MarksAreOld(Apply(s, step))
  {
  }

  lemma NothingTimesOut(s: State, step: Step)
    requires NoTimeouts(s) && Orderly(s, step)
    ensures NoTimeouts(Apply(s, step))
  {
    if step.Deliver? && step.group == PaymentGroup && step.event < |s.log| {
      var r := Payments.Handle(s.books, s.log[step.event], step.answer.gateway);
      if r.Ok? && r.value.event.Some? {
        Payments.WrittenFor(s.books, s.log[step.event], step.answer.gateway);
      }
    }
  }

  lemma {:induction false} OrderlyRunKeepsPhase(steps: seq<Step>)
    requires OrderlyRun(steps)
    ensures PhaseInv(Run(INITIAL, steps)) && NoTimeouts(Run(INITIAL, steps))
  {
    if steps != [] {
      var n := |steps| - 1;
      var front := steps[..n];
      assert OrderlyRun(front) by {
        forall m | 0 <= m < |front| ensures Orderly(Run(INITIAL, front[..m]), front[m]) {
          assert front[..m] == steps[..m];
        }
      }
      OrderlyRunKeepsPhase(front);
      StockConservation(front);
      var s := Run(INITIAL, front);
      StepKeepsSound(s, steps[n]);
      forall o: nat ensures Phase(ViewOf(Apply(s, steps[n]), o)) {
        StepKeepsPhase(s, steps[n], o);
      }
    }
  }

  lemma StepKeepsPhase(s: State, step: Step, o: nat)
    requires PhaseInv(s) && NoTimeouts(s) && Orderly(s, step)
    ensures Phase(ViewOf(Apply(s, step), o))
  {
    assert Phase(ViewOf(s, o));
    match step {
      case CreateOrder(id, items, currency) =>
        if OrderService.Create(s.orders, id, items, currency).Ok? {
          CreationKeepsPhase(s, id, items, currency, o);
        }
      case Admin(edit) => EditKeepsPhase(s, edit, o);
      case Deliver(g, i, a) => DeliveryKeepsPhase(s, g, i, a, o);
    }
  }

  // ── The theorem ─────────────────────────────────────────────

  /** With everything consumed, no capture request is open. */
  lemma {:induction false} NothingOpen(s: State, n: nat, o: nat)
    requires Quiescent(s) && n <= |s.log|
    ensures Open(s.log[..n], s.processed, o) == 0
  {
    if n > 0 {
      NothingOpen(s, n - 1, o);
      assert s.log[..n][..n - 1] == s.log[..n - 1];
      assert Done(s, PaymentGroup, n - 1);
    }
  }

  function TopicOfKind(k: Kind): Topic {
    match k
    case KCreated => OrdersTopic
    case KConfirmed => OrdersTopic
    case KCancelled => OrdersTopic
    case KReserved => CatalogTopic
    case KReservationFailed => CatalogTopic
    case _ => PaymentsTopic
  }

  lemma SentIsSeen(s: State, g: Group, k: Kind, o: nat)
    requires Quiescent(s) && Subscribes(g, TopicOfKind(k))
    ensures Sent(s, k, o) ==> Seen(s, g, k, o)
  {
    FirstIsFirst(s.log, k, o);
    if Sent(s, k, o) {
      var i := First(s.log, k, o);
      assert TopicOf(s.log[i]) == TopicOfKind(k);
      assert Done(s, g, i);
    }
  }

  lemma CreatedIsAnswered(s: State, o: nat)
    requires Quiescent(s)
    ensures Sent(s, KCreated, o) ==> Taken(s, o) || Sent(s, KReservationFailed, o)
  {
    FirstIsFirst(s.log, KCreated, o);
    if Sent(s, KCreated, o) {
      var i := First(s.log, KCreated, o);
      assert Subscribes(CatalogGroup, TopicOf(s.log[i]));
      assert Done(s, CatalogGroup, i);
    }
  }

  lemma AllSeen(s: State, o: nat)
    requires Quiescent(s)
    ensures AllSeenIn(ViewOf(s, o))
  {
    CreatedIsAnswered(s, o);
    SentIsSeen(s, CatalogGroup, KCancelled, o);
    SentIsSeen(s, PaymentGroup, KCancelled, o);
    SentIsSeen(s, PaymentGroup, KReserved, o);
    SentIsSeen(s, OrderGroup, KReserved, o);
    SentIsSeen(s, OrderGroup, KReservationFailed, o);
    SentIsSeen(s, OrderGroup, KAuthorized, o);
    SentIsSeen(s, OrderGroup, KFailed, o);
  }

  /**
   * (Confirmed, captured, every item reserved), (cancelled, no payment, nothing reserved) or (cancelled,
   * voided, nothing reserved).
   */
  predicate Consistent(s: State, o: nat) {
    o in s.orders &&
    var order := s.orders[o];
    || (order.status == OrderStatus.Confirmed && Ledger.StateOf(s.books, o) == Ledger.Captured
        && AllHeld(s.stock.rows, o, order.items))
    || (order.status == Cancelled && Ledger.StateOf(s.books, o) == Ledger.New && HoldsNothing(s.stock, o))
    || (order.status == Cancelled && Ledger.StateOf(s.books, o) == Ledger.Voided && HoldsNothing(s.stock, o))
  }

  /**
   * Quiescent saga consistency: in an orderly run, for every sequence of gateway answers and with failed
   * attempts repeated in any order, whenever every message is consumed each order is exactly in one of the
   * three consistent outcomes.
   */
  lemma QuiescentConsistency(steps: seq<Step>, o: nat)
    requires OrderlyRun(steps) && Quiescent(Run(INITIAL, steps)) && o in Run(INITIAL, steps).orders
    ensures Consistent(Run(INITIAL, steps), o)
  {
    var s := Run(INITIAL, steps);
    OrderlyRunKeepsPhase(steps);
    QuietOrder(s, o);
  }

  lemma QuietOrder(s: State, o: nat)
    requires PhaseInv(s) && Quiescent(s) && o in s.orders
    ensures Consistent(s, o)
  {
    var v := ViewOf(s, o);
    assert Phase(v) && ChainOf(s, o) && HistoryOf(s.orders, s.log, o);
    AllSeen(s, o);
    ConfirmedHasOutcome(s, o);
    StateIsOneOfFour(s.books, o);
    ViewIsCoherent(s, o);
    QuietPhase(v);
  }

  lemma ConfirmedHasOutcome(s: State, o: nat)
    requires Quiescent(s) && ChainOf(s, o) && HistoryOf(s.orders, s.log, o)
    ensures Sent(s, KConfirmed, o) ==> Sent(s, KCaptured, o) || Sent(s, KFailed, o)
  {
    NothingOpen(s, |s.log|, o);
    assert s.log[..|s.log|] == s.log;
    FirstIsFirst(s.log, KConfirmed, o);
    OutcomeIsKnown(s.log, o);
  }

  predicate AllSeenIn(v: View) {
    && (v.created ==> v.cTaken || v.unreserved) && (v.cancelled ==> v.cCancelled && v.pCancelled)
    && (v.reserved ==> v.pReserved && v.oReserved) && (v.unreserved ==> v.oUnreserved)
    && (v.authorized ==> v.oAuthorized) && (v.failed ==> v.oFailed)
  }

  lemma QuietPhase(v: View)
    requires Phase(v) && Coherent(v) && v.known && AllSeenIn(v) && (v.confirmed ==> v.captured || v.failed)
    requires v.pay in {Ledger.New, Ledger.Authorized, Ledger.Captured, Ledger.Voided}
    ensures || (v.status == OrderStatus.Confirmed && v.pay == Ledger.Captured && v.held)
            || (v.status == Cancelled && v.pay == Ledger.New && v.nothing)
            || (v.status == Cancelled && v.pay == Ledger.Voided && v.nothing)
  {
  }

  /** A capture outcome is a capture or a failure. */
  lemma {:induction false} OutcomeIsKnown(log: seq<Event>, o: nat)
    ensures Outcomes(log, o) >= 1 ==> First(log, KCaptured, o) >= 0 || First(log, KFailed, o) >= 0
  {
    if log != [] {
      OutcomeIsKnown(log[..|log| - 1], o);
    }
  }
}
