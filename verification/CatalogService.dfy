/** The catalog service's event handlers over the inventory tables. */
module CatalogService {
  import opened Common
  import opened Orders
  import opened Inventory
  import opened Events

  /**
   * Outcome of an attempt: `committed` says whether the consumer's transaction commits. A failed
   * reservation still leaves its event, written on a transaction of its own.
   */
  datatype Written = Written(stock: Stock, event: Option<Event>, committed: bool)

  /** The (sku, quantity) pairs parsed from an OrderCreated payload. */
  function Lines(items: seq<Item>): seq<Line> {
    seq(|items|, i requires 0 <= i < |items| => Line(items[i].sku, items[i].qty))
  }

  /** Whether the database serves the reservation, and the separate transaction of the failure event. */
  datatype DbAnswer = DbAnswer(reserveOk: bool, noteOk: bool)

  /** Any error, of stock or of the database, undoes the reservation and is noted. */
  function ReserveForOrder(st: Stock, order: nat, items: seq<Item>, total: int, currency: string,
                           db: DbAnswer): Written {
    var reserved := if db.reserveOk then ReserveAll(st, order, Lines(items)) else Err(DatabaseError);
    match reserved
    case Ok(st') => Written(st', Some(InventoryReservedEvent(order, Lines(items), total, currency)), true)
    case Err(_) => Written(st, if db.noteOk then Some(InventoryReservationFailed(order)) else None, false)
  }

  function Handle(st: Stock, e: Event, db: DbAnswer): Written {
    match e
    case OrderCreated(o, items, total, currency) => ReserveForOrder(st, o, items, total, currency, db)
    case OrderCancelled(o) => Written(ReleaseAll(st, o), None, true)
    case _ => Written(st, None, true)
  }

  /** The database serves the reservation and every line fits. */
  ghost predicate WouldReserve(st: Stock, order: nat, items: seq<Item>, db: DbAnswer) {
    db.reserveOk && Reservable(st, order, Lines(items))
  }

  lemma ReservesExactly(st: Stock, order: nat, items: seq<Item>, total: int, currency: string, db: DbAnswer)
    ensures var w := ReserveForOrder(st, order, items, total, currency, db);
            && (w.committed <==> WouldReserve(st, order, items, db))
            && (w.committed ==>
                  && w.event == Some(InventoryReservedEvent(order, Lines(items), total, currency))
                  && w.stock.rows == st.rows + NewRows(order, Lines(items)))
            && (!w.committed ==>
                  && w.stock == st
                  && w.event == if db.noteOk then Some(InventoryReservationFailed(order)) else None)
  {
    ReserveAllExactly(st, order, Lines(items));
  }

  class CatalogConsumer {
    const tables: CatalogTables
    var outbox: seq<Event>

    constructor (t: CatalogTables)
      ensures tables == t && outbox == []
    {
      tables, outbox := t, [];
    }

    method HandleOrderCreated(order: nat, items: seq<Item>, total: int, currency: string, db: DbAnswer)
      returns (committed: bool)
      requires tables.Valid()
      modifies this, tables
      ensures tables.Valid()
      ensures var w := ReserveForOrder(old(tables.State()), order, items, total, currency, db);
              && committed == w.committed && tables.State() == w.stock
              && outbox == old(outbox) + if w.event.Some? then [w.event.value] else []
    {
      var lines := Lines(items);
      if db.reserveOk {
        var reserved := tables.ReserveForOrder(order, lines);
        if reserved.Ok? {
          outbox := outbox + [InventoryReservedEvent(order, lines, total, currency)];
          return true;
        }
      }
      if db.noteOk {
        outbox := outbox + [InventoryReservationFailed(order)];
      }
      return false;
    }

    /** A release error would be swallowed; the loop never returns one. */
    method HandleOrderCancelled(order: nat)
      requires tables.Valid()
      modifies tables
      ensures tables.Valid() && tables.State() == ReleaseAll(old(tables.State()), order)
    {
      var _ := tables.ReleaseAllReservations(order);
    }
  }
}
